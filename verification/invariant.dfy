/** What the whole database keeps, and the one step every mint is made of. */
module Invariant {
  import opened Wrappers
  import opened Types
  import opened Calc
  import opened Sums
  import opened LedgerSteps
  import opened LedgerInvariant
  import opened AdvanceRules
  import opened MintRules
  import opened ProposalRules

  // ---- Proposals ----

  /** A recorded budget_advance proposal approved, with quorum, this request. */
  ghost predicate PassedAdvance(proposals: seq<Proposal>, rid: nat) {
    exists pid: nat | pid < |proposals| ::
      Passed(proposals[pid]) && proposals[pid].kind.BudgetAdvance? && proposals[pid].kind.requestId == rid
  }

  /** Ballots: one per member, weighted by the snapshot, on the ballot paper. */
  ghost predicate BallotsOk(votes: seq<Vote>, weights: map<Member, int>, options: seq<string>) {
    && (forall i | 0 <= i < |votes| ::
          votes[i].member in weights && votes[i].weight == weights[votes[i].member] && votes[i].option in options)
    && (forall i, j | 0 <= i < j < |votes| :: votes[i].member != votes[j].member)
  }

  ghost predicate SnapshotOk(p: Proposal, weights: map<Member, int>) {
    && p.snapshot.Some?
    && (forall m | m in weights :: weights[m] >= 0)
    && SumMap(weights) == p.snapshot.value.governanceSupply
  }

  ghost predicate ResultOk(p: Proposal, votes: seq<Vote>) {
    && p.result.Some?
    && p.result.value.voterCount == |votes|
    && p.result.value.totalWeight == TotalWeight(votes)
    && p.result.value.winner == ResolveOutcome(votes, p.options)
  }

  ghost predicate ProposalOk(p: Proposal, hasSnapshot: bool, weights: map<Member, int>, votes: seq<Vote>) {
    match p.status
    case Draft => !hasSnapshot && votes == [] && p.snapshot.None? && p.result.None?
    case Open => hasSnapshot && SnapshotOk(p, weights) && BallotsOk(votes, weights, p.options) && p.result.None?
    case Ended => false
    case Recorded => hasSnapshot && SnapshotOk(p, weights) && BallotsOk(votes, weights, p.options) && ResultOk(p, votes)
  }

  ghost predicate BoardOk(proposals: seq<Proposal>, snapshots: map<nat, map<Member, int>>, votes: map<nat, seq<Vote>>) {
    && (forall pid: nat | pid < |proposals| ::
          ProposalOk(proposals[pid], pid in snapshots, SnapshotOf(snapshots, pid), VotesOf(votes, pid)))
    && (forall pid | pid in snapshots || pid in votes :: pid < |proposals|)
  }

  // ---- Policy versions ----

  ghost predicate VersionOk(row: PolicyVersion, i: nat, proposals: seq<Proposal>) {
    && row.version == i + 1
    && RatesOk(row.rates)
    && (i > 0 ==>
          && row.proposalId.Some?
          && row.proposalId.value < |proposals|
          && Passed(proposals[row.proposalId.value])
          && proposals[row.proposalId.value].kind.TokenPolicyChange?
          && proposals[row.proposalId.value].kind.rates == row.rates)
  }

  ghost predicate VersionsOk(versions: seq<PolicyVersion>, proposals: seq<Proposal>) {
    forall i: nat | i < |versions| :: VersionOk(versions[i], i, proposals)
  }

  /** The live policy is the last version, or the one before it while the last
      one waits for the very next epoch. */
  ghost predicate PolicyOk(p: Policy, versions: seq<PolicyVersion>, epochCount: nat) {
    && 1 <= p.version <= |versions|
    && p.rates == versions[p.version - 1].rates
    && p.rules == versions[p.version - 1].rules
    && match p.pendingVersionId {
      case None => p.version == |versions| && p.pendingEffectiveEpoch.None?
      case Some(id) =>
        && p.version == |versions| - 1 && id == p.version
        && epochCount > 0
        && p.pendingEffectiveEpoch == Some(epochCount + 1)
        && versions[id].effectiveEpoch == epochCount + 1
    }
  }

  // ---- Advance requests ----

  ghost predicate RequestOk(req: AdvanceRequest, rid: nat, proposals: seq<Proposal>) {
    && req.requestedAmount >= 0
    && (req.secondApprovedBy.Some? ==>
          req.secondApprovedBy.value != req.requestedBy && req.proposalId.None? && !req.relatedParty)
    && (req.status == PendingSecondApproval ==>
          req.secondApprovedBy.None? && req.proposalId.None? && !req.relatedParty)
    && (req.status == PendingProposal ==> req.secondApprovedBy.None?)
    && (req.status == Approved || req.status == Executed ==>
          req.secondApprovedBy.Some? || PassedAdvance(proposals, rid))
    && (if req.status == Executed
        then req.approvedAmount.Some? && 0 < req.approvedAmount.value <= req.requestedAmount
        else req.approvedAmount.None?)
  }

  ghost predicate RequestsOk(requests: seq<AdvanceRequest>, proposals: seq<Proposal>) {
    forall rid: nat | rid < |requests| :: RequestOk(requests[rid], rid, proposals)
  }

  /** The cumulative advance is over 1000 bps once floored. */
  ghost predicate NeedsProposal(advanced: int, base: int, relatedParty: bool) {
    advanced * BPS >= (PROPOSAL_THRESHOLD_BPS + 1) * base || relatedParty
  }

  /** What the epoch had advanced up to and including event i. */
  function AdvancedUpTo(mints: seq<MintEvent>, i: nat): int
    requires i < |mints|
  {
    SumMints(mints[..i + 1], OfEpoch(mints[i].leg.epochNumber, NextEpochAdvance))
  }

  /** An advance event names the request it executed, for the amount it was
      executed with, and had the community behind it where that is required. */
  ghost predicate AdvanceEventOk(mints: seq<MintEvent>, i: nat, epochs: seq<Epoch>, requests: seq<AdvanceRequest>,
                                 proposals: seq<Proposal>)
    requires i < |mints|
  {
    var leg := mints[i].leg;
    && leg.requestId.Some? && leg.requestId.value < |requests|
    && var req := requests[leg.requestId.value];
    && req.status == Executed && req.approvedAmount == Some(leg.amount)
    && leg.epochId.Some? && leg.epochId.value < |epochs|
    && (NeedsProposal(AdvancedUpTo(mints, i), epochs[leg.epochId.value].baseBudget, req.relatedParty)
        ==> PassedAdvance(proposals, leg.requestId.value))
  }

  ghost predicate AdvancesOk(l: Ledger, requests: seq<AdvanceRequest>, proposals: seq<Proposal>) {
    && (forall i: nat | i < |l.mints| && l.mints[i].leg.source == NextEpochAdvance ::
          AdvanceEventOk(l.mints, i, l.epochs, requests, proposals))
    && (forall i | 0 <= i < |l.mints| && l.mints[i].leg.source == CurrentEpoch :: l.mints[i].leg.requestId.None?)
    && (forall i, j | 0 <= i < j < |l.mints| && l.mints[i].leg.requestId.Some? ::
          l.mints[i].leg.requestId != l.mints[j].leg.requestId)
    && (forall rid: nat | rid < |requests| && requests[rid].status == Executed :: MintOfRequest(l.mints, rid).Some?)
  }

  // ---- Single use ----

  /** Two events of one contribution are the two legs of one call. */
  ghost predicate TwoLegsOfOneCall(a: Leg, b: Leg) {
    && a.source == CurrentEpoch && b.source == NextEpochAdvance
    && a.member == b.member && a.epochId == b.epochId && a.epochNumber == b.epochNumber
    && a.proposalId == b.proposalId && a.relatedParty == b.relatedParty
  }

  ghost predicate RelatedLegOk(leg: Leg, proposals: seq<Proposal>) {
    leg.mintType == Contribution && leg.relatedParty ==>
      if leg.proposalId.Some? then AuthorizesMember(proposals, leg.proposalId.value, leg.member)
      else leg.secondApprovedBy.Some? && leg.secondApprovedBy.value != leg.approvedBy
  }

  ghost predicate SingleUseOk(mints: seq<MintEvent>, proposals: seq<Proposal>) {
    && (forall i | 0 <= i < |mints| :: mints[i].leg.mintType == Contribution <==> mints[i].leg.contributionId.Some?)
    && (forall i, j | 0 <= i < j < |mints|
          && mints[i].leg.contributionId.Some? && mints[i].leg.contributionId == mints[j].leg.contributionId ::
          j == i + 1 && TwoLegsOfOneCall(mints[i].leg, mints[j].leg))
    && (forall i | 0 <= i < |mints| :: RelatedLegOk(mints[i].leg, proposals))
    && (forall i, j | 0 <= i < j < |mints| && SharesAuthority(mints[i].leg, mints[j].leg) ::
          mints[i].leg.contributionId == mints[j].leg.contributionId)
  }

  /** Both are related-party contribution legs under one proposal. */
  ghost predicate SharesAuthority(a: Leg, b: Leg) {
    && a.mintType == Contribution && a.relatedParty && b.mintType == Contribution && b.relatedParty
    && a.proposalId.Some? && a.proposalId == b.proposalId
  }

  // ---- All of it ----

  ghost predicate Inv(v: Tables) {
    && LedgerInv(v.ledger, v.policy.rates)
    && BoardOk(v.proposals, v.snapshots, v.votes)
    && VersionsOk(v.versions, v.proposals)
    && PolicyOk(v.policy, v.versions, |v.ledger.epochs|)
    && RequestsOk(v.requests, v.proposals)
    && AdvancesOk(v.ledger, v.requests, v.proposals)
    && SingleUseOk(v.ledger.mints, v.proposals)
  }

  /** The rows the seed writes before the engine runs. */
  function Initial(rates: Rates, rules: seq<Rule>): Tables {
    Tables(
      Policy(1, rates, rules, None, None),
      [PolicyVersion(1, 1, rates, rules, None)],
      Ledger(0, 0, [], map[], [], []),
      [], [], map[], map[])
  }

  lemma InitialInv(rates: Rates, rules: seq<Rule>)
    requires RatesOk(rates)
    ensures Inv(Initial(rates, rules))
  {
    hide LedgerInv, ActiveEpoch;
    EmptyLedgerInv(rates);
  }

  // ---- What recorded proposals authorize stays authorized ----

  /** Later proposal rows: recorded ones are untouched. */
  ghost predicate KeepsRecorded(a: seq<Proposal>, b: seq<Proposal>) {
    && |a| <= |b|
    && forall pid: nat | pid < |a| && a[pid].status == Recorded :: b[pid] == a[pid]
  }

  lemma AuthorityStays(a: seq<Proposal>, b: seq<Proposal>, rid: nat)
    requires KeepsRecorded(a, b)
    ensures PassedAdvance(a, rid) ==> PassedAdvance(b, rid)
  {
    if PassedAdvance(a, rid) {
      var pid: nat :| pid < |a| && Passed(a[pid]) && a[pid].kind.BudgetAdvance? && a[pid].kind.requestId == rid;
      assert Passed(b[pid]) && b[pid].kind.BudgetAdvance? && b[pid].kind.requestId == rid;
    }
  }

  /** Everything that relies on proposals survives later proposal rows. */
  lemma ProposalsMayGrow(v: Tables, proposals: seq<Proposal>)
    requires KeepsRecorded(v.proposals, proposals)
    requires VersionsOk(v.versions, v.proposals) && RequestsOk(v.requests, v.proposals)
    requires AdvancesOk(v.ledger, v.requests, v.proposals) && SingleUseOk(v.ledger.mints, v.proposals)
    ensures VersionsOk(v.versions, proposals) && RequestsOk(v.requests, proposals)
    ensures AdvancesOk(v.ledger, v.requests, proposals) && SingleUseOk(v.ledger.mints, proposals)
  {
    forall rid: nat
      ensures PassedAdvance(v.proposals, rid) ==> PassedAdvance(proposals, rid)
    {
      AuthorityStays(v.proposals, proposals, rid);
    }
    hide PassedAdvance;
    assert VersionsOk(v.versions, proposals) by {
      forall i: nat | i < |v.versions|
        ensures VersionOk(v.versions[i], i, proposals)
      {
        assert VersionOk(v.versions[i], i, v.proposals);
      }
    }
    forall rid: nat | rid < |v.requests|
      ensures RequestOk(v.requests[rid], rid, proposals)
    {
      assert RequestOk(v.requests[rid], rid, v.proposals);
    }
    forall i: nat | i < |v.ledger.mints| && v.ledger.mints[i].leg.source == NextEpochAdvance
      ensures AdvanceEventOk(v.ledger.mints, i, v.ledger.epochs, v.requests, proposals)
    {
      assert AdvanceEventOk(v.ledger.mints, i, v.ledger.epochs, v.requests, v.proposals);
    }
    forall i | 0 <= i < |v.ledger.mints|
      ensures RelatedLegOk(v.ledger.mints[i].leg, proposals)
    {
      assert RelatedLegOk(v.ledger.mints[i].leg, v.proposals);
    }
  }

  // ---- Posting one leg, with the request it executes ----

  function PostLeg(v: Tables, leg: Leg): Tables {
    v.(ledger := PostMint(v.ledger, leg),
       requests := if leg.requestId.Some? then MarkExecuted(v.requests, leg.requestId.value, leg.amount)
                   else v.requests)
  }

  ghost predicate RequestAllows(v: Tables, leg: Leg) {
    if leg.requestId.None? then leg.source == CurrentEpoch
    else
      var rid := leg.requestId.value;
      && leg.source == NextEpochAdvance && rid < |v.requests| && v.requests[rid].status == Approved
      && leg.amount <= v.requests[rid].requestedAmount
      && v.ledger.epochs != []
      && var epoch := v.ledger.epochs[|v.ledger.epochs| - 1];
      (NeedsProposal(epoch.advancedMinted + leg.amount, epoch.baseBudget, v.requests[rid].relatedParty)
       ==> PassedAdvance(v.proposals, rid))
  }

  ghost predicate FirstUse(mints: seq<MintEvent>, leg: Leg) {
    && (forall i | 0 <= i < |mints| && leg.contributionId.Some? && mints[i].leg.contributionId == leg.contributionId ::
          i == |mints| - 1 && TwoLegsOfOneCall(mints[i].leg, leg))
    && (forall i | 0 <= i < |mints| && SharesAuthority(mints[i].leg, leg) ::
          mints[i].leg.contributionId == leg.contributionId)
  }

  ghost predicate LegAllowed(v: Tables, leg: Leg) {
    && Admits(v.ledger, v.policy.rates, leg)
    && RequestAllows(v, leg)
    && (leg.mintType == Contribution <==> leg.contributionId.Some?)
    && RelatedLegOk(leg, v.proposals)
    && FirstUse(v.ledger.mints, leg)
  }

  lemma PostLegKeepsInv(v: Tables, leg: Leg)
    requires Inv(v) && LegAllowed(v, leg)
    ensures Inv(PostLeg(v, leg))
  {
    hide LedgerInv, BoardOk, VersionsOk, AdvancesOk, SingleUseOk, PassedAdvance;
    PostMintKeepsInv(v.ledger, v.policy.rates, leg);
    PostLegRequests(v, leg);
    PostLegAdvances(v, leg);
    PostLegSingleUse(v.ledger.mints, v.proposals, Stamp(v.ledger, leg));
    assert |PostMint(v.ledger, leg).epochs| == |v.ledger.epochs|;
  }

  lemma PostLegRequests(v: Tables, leg: Leg)
    requires RequestsOk(v.requests, v.proposals) && RequestAllows(v, leg) && leg.amount > 0
    ensures RequestsOk(PostLeg(v, leg).requests, v.proposals)
  {
    hide PassedAdvance;
    var v' := PostLeg(v, leg);
    forall rid: nat | rid < |v'.requests|
      ensures RequestOk(v'.requests[rid], rid, v'.proposals)
    {
      assert RequestOk(v.requests[rid], rid, v.proposals);
    }
  }

  /** Executed requests have their event, and no request has two. */
  lemma PostLegBacking(v: Tables, leg: Leg)
    requires AdvancesOk(v.ledger, v.requests, v.proposals) && RequestAllows(v, leg)
    ensures var v' := PostLeg(v, leg);
      && (forall rid: nat | rid < |v'.requests| && v'.requests[rid].status == Executed ::
            MintOfRequest(v'.ledger.mints, rid).Some?)
      && (forall i: nat | i < |v.ledger.mints| && leg.requestId.Some? ::
            v.ledger.mints[i].leg.requestId != leg.requestId)
  {
    hide PassedAdvance, NeedsProposal;
    var v' := PostLeg(v, leg);
    var mints, mints' := v.ledger.mints, v'.ledger.mints;
    forall rid: nat | rid < |v'.requests| && v'.requests[rid].status == Executed
      ensures MintOfRequest(mints', rid).Some?
    {
      var i := if leg.requestId == Some(rid) then |mints| else MintOfRequest(mints, rid).value;
      assert mints'[i].leg.requestId == Some(rid);
    }
    forall i: nat | i < |mints| && leg.requestId.Some?
      ensures mints[i].leg.requestId != leg.requestId
    {
      if mints[i].leg.source == NextEpochAdvance {
        assert AdvanceEventOk(mints, i, v.ledger.epochs, v.requests, v.proposals);
      }
    }
  }

  lemma PostLegAdvances(v: Tables, leg: Leg)
    requires AdvancesOk(v.ledger, v.requests, v.proposals) && RequestAllows(v, leg)
    requires LedgerInv(v.ledger, v.policy.rates) && LegShape(|v.ledger.epochs|, leg)
    ensures var v' := PostLeg(v, leg); AdvancesOk(v'.ledger, v'.requests, v'.proposals)
  {
    hide LedgerInv, PassedAdvance, NeedsProposal;
    PostLegBacking(v, leg);
    if leg.source == NextEpochAdvance {
      PostLegNewEvent(v, leg);
    }
    var v' := PostLeg(v, leg);
    var mints, mints' := v.ledger.mints, v'.ledger.mints;
    forall i: nat | i < |mints'| && mints'[i].leg.source == NextEpochAdvance
      ensures AdvanceEventOk(mints', i, v'.ledger.epochs, v'.requests, v'.proposals)
    {
      if i < |mints| {
        PostLegOldEvent(v, leg, i);
      }
    }
  }

  lemma PostLegOldEvent(v: Tables, leg: Leg, i: nat)
    requires i < |v.ledger.mints| && v.ledger.mints[i].leg.requestId != leg.requestId
    requires AdvanceEventOk(v.ledger.mints, i, v.ledger.epochs, v.requests, v.proposals)
    ensures var v' := PostLeg(v, leg);
      AdvanceEventOk(v'.ledger.mints, i, v'.ledger.epochs, v'.requests, v'.proposals)
  {
    hide PassedAdvance, NeedsProposal;
    assert PostLeg(v, leg).ledger.mints[..i + 1] == v.ledger.mints[..i + 1];
  }

  lemma PostLegNewEvent(v: Tables, leg: Leg)
    requires LedgerInv(v.ledger, v.policy.rates) && LegShape(|v.ledger.epochs|, leg) && RequestAllows(v, leg)
    requires leg.source == NextEpochAdvance
    ensures var v' := PostLeg(v, leg);
      AdvanceEventOk(v'.ledger.mints, |v.ledger.mints|, v'.ledger.epochs, v'.requests, v'.proposals)
  {
    hide LedgerInv, PassedAdvance;
    PostLegCumulative(v, leg);
    assert v.ledger.epochs[|v.ledger.epochs| - 1].baseBudget
        == Meter(v.ledger.epochs, leg)[|v.ledger.epochs| - 1].baseBudget;
  }

  /** After its own leg the epoch's advance meter is the cumulative amount. */
  lemma PostLegCumulative(v: Tables, leg: Leg)
    requires LedgerInv(v.ledger, v.policy.rates) && LegShape(|v.ledger.epochs|, leg)
    requires leg.source == NextEpochAdvance
    ensures v.ledger.epochs != []
    ensures AdvancedUpTo(PostMint(v.ledger, leg).mints, |v.ledger.mints|)
         == v.ledger.epochs[|v.ledger.epochs| - 1].advancedMinted + leg.amount
  {
    var mints := v.ledger.mints;
    var q := OfEpoch(|v.ledger.epochs|, NextEpochAdvance);
    SumMintsAppend(mints, Stamp(v.ledger, leg), q);
    assert PostMint(v.ledger, leg).mints[..|mints| + 1] == mints + [Stamp(v.ledger, leg)];
    assert MetersOk(v.ledger.epochs, mints);
    assert v.ledger.epochs[|v.ledger.epochs| - 1].advancedMinted == SumMints(mints, q);
  }

  lemma PostLegSingleUse(mints: seq<MintEvent>, proposals: seq<Proposal>, e: MintEvent)
    requires SingleUseOk(mints, proposals)
    requires e.leg.mintType == Contribution <==> e.leg.contributionId.Some?
    requires RelatedLegOk(e.leg, proposals) && FirstUse(mints, e.leg)
    ensures SingleUseOk(mints + [e], proposals)
  {
  }
}
