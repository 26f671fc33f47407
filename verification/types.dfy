/** The tables the token-economy engine works on, as values: one row type per
    table, for one community. Row ids are positions in their table. */
module Types {
  import opened Wrappers

  type Member = string

  datatype Role = Owner | Manager | Ordinary

  // ---- Policy ----

  datatype Rule = Rule(id: string, tokenAmount: int)

  /** The three constitutional rates, in basis points. */
  datatype Rates = Rates(inflationBps: int, maxAdvanceBps: int, memberCapBps: int)

  datatype Policy = Policy(
    version: int,
    rates: Rates,
    rules: seq<Rule>,
    pendingVersionId: Option<nat>,
    pendingEffectiveEpoch: Option<int>)

  datatype PolicyVersion = PolicyVersion(
    version: int,
    effectiveEpoch: int,
    rates: Rates,
    rules: seq<Rule>,
    proposalId: Option<nat>)

  // ---- Epochs ----

  datatype EpochStatus = Active | Closing | Closed

  datatype Epoch = Epoch(
    number: int,
    status: EpochStatus,
    openingSupply: int,
    inflationBps: int,
    baseBudget: int,
    debt: int,
    effectiveBudget: int,
    maxAdvance: int,
    regularMinted: int,
    advancedMinted: int,
    unusedBudget: int)

  // ---- Ledger ----

  datatype BudgetSource = CurrentEpoch | NextEpochAdvance

  datatype MintType = Contribution | InitialAllocation | SpecialReward

  datatype GovStatus = Effective | Pending

  /** The business columns of a mint event: fixed when the row is written. An
      epochId of None is the 'genesis' pseudo-epoch. */
  datatype Leg = Leg(
    member: Member,
    epochId: Option<nat>,
    epochNumber: int,
    mintType: MintType,
    source: BudgetSource,
    amount: int,
    policyVersion: int,
    approvedBy: string,
    secondApprovedBy: Option<string>,
    relatedParty: bool,
    contributionId: Option<nat>,
    proposalId: Option<nat>,
    requestId: Option<nat>)

  /** A TokenMintEvent row: a leg, its governance columns and its snapshots. */
  datatype MintEvent = MintEvent(
    leg: Leg,
    status: GovStatus,
    activationEpoch: Option<int>,
    ledgerSeq: int,
    balanceBefore: int,
    balanceAfter: int,
    supplyBefore: int,
    supplyAfter: int,
    activeBefore: int,
    activeAfter: int)

  datatype ReversalEvent = ReversalEvent(
    member: Member,
    mintId: nat,
    amount: int,
    reason: string,
    totalAfter: int,
    activeAfter: int,
    pendingAfter: int,
    supplyAfter: int,
    approvedBy: string,
    proposalId: Option<nat>,
    ledgerSeq: int)

  datatype Balance = Balance(
    total: int,
    active: int,
    pending: int,
    earnedEpoch: int,
    earnedLifetime: int,
    reversedLifetime: int)

  const ZERO_BALANCE := Balance(0, 0, 0, 0, 0, 0)

  /** The state row (supply and sequence) with the tables its events touch. */
  datatype Ledger = Ledger(
    supply: int,
    ledgerSeq: int,
    epochs: seq<Epoch>,
    balances: map<Member, Balance>,
    mints: seq<MintEvent>,
    reversals: seq<ReversalEvent>)

  // ---- Advance requests ----

  datatype RequestStatus =
    | PendingSecondApproval
    | PendingProposal
    | Approved
    | Rejected
    | Executed

  datatype AdvanceRequest = AdvanceRequest(
    epochId: nat,
    member: Member,
    requestedAmount: int,
    approvedAmount: Option<int>,
    rateBps: int,
    contributionIds: seq<nat>,
    status: RequestStatus,
    relatedParty: bool,
    requestedBy: string,
    secondApprovedBy: Option<string>,
    proposalId: Option<nat>)

  // ---- Proposals ----

  /** The six proposal types with their type-specific payload. */
  datatype ProposalKind =
    | CommunityDecision
    | TokenPolicyChange(rates: Rates, rules: Option<seq<Rule>>)
    | BudgetAdvance(advanceAmount: int, requestId: nat)
    | SpecialMint(recipient: Member, amount: int)
    | RelatedPartyMint(recipient: Member, amount: int, note: string)
    | TokenReversal(mintId: nat)

  datatype ProposalStatus = Draft | Open | Ended | Recorded

  datatype SnapshotColumns = SnapshotColumns(
    epochNumber: int,
    totalSupply: int,
    governanceSupply: int,
    policyVersion: int,
    snapshotAt: int)

  datatype ResultColumns = ResultColumns(
    endedAt: int,
    winner: string,
    voterCount: int,
    totalWeight: int)

  datatype Proposal = Proposal(
    kind: ProposalKind,
    status: ProposalStatus,
    options: seq<string>,
    endTime: Option<int>,
    minimumVoters: int,
    snapshot: Option<SnapshotColumns>,
    result: Option<ResultColumns>)

  datatype Vote = Vote(member: Member, option: string, weight: int, totalBalance: int)

  // ---- The whole database ----

  /** Every table of one community. snapshots and votes are grouped by the
      proposal their rows belong to. */
  datatype Tables = Tables(
    policy: Policy,
    versions: seq<PolicyVersion>,
    ledger: Ledger,
    requests: seq<AdvanceRequest>,
    proposals: seq<Proposal>,
    snapshots: map<nat, map<Member, int>>,
    votes: map<nat, seq<Vote>>)

  // ---- What the services return ----

  datatype MintOutcome = MintOutcome(mintIds: seq<nat>, balanceAfter: int, supplyAfter: int)
}
