/** What a contribution mint and a genesis distribution return and leave, for
    every reachable state and every argument, in terms of the columns alone. */
module MintOutcomes {
  import opened Wrappers
  import opened Types
  import opened Calc
  import opened LedgerSteps
  import opened LedgerInvariant
  import opened AdvanceRules
  import opened MintRules
  import opened Invariant
  import opened ServiceInvariants
  import opened Runs
  import opened LedgerTheorems
  import opened ReversalOutcomes

  // ---- What a contribution mint asks for ----

  /** The member is a related party by role. */
  ghost predicate Related(role: Option<Role>) {
    role == Some(Owner) || role == Some(Manager)
  }

  ghost predicate Minted(v: Tables, contributionId: nat) {
    exists i | 0 <= i < |v.ledger.mints| :: v.ledger.mints[i].leg.contributionId == Some(contributionId)
  }

  /** The first rule with the contribution's id allows the approved amount. */
  ghost predicate WithinRule(v: Tables, c: ContributionRow) {
    && c.approvedAmount.Some? && c.approvedAmount.value > 0 && c.ruleId.Some?
    && exists i: nat ::
         FirstRule(v.policy.rules, c.ruleId.value, i) && c.approvedAmount.value <= v.policy.rules[i].tokenAmount
  }

  ghost predicate FirstRule(rules: seq<Rule>, id: string, i: nat) {
    i < |rules| && rules[i].id == id && forall j | 0 <= j < i :: rules[j].id != id
  }

  function Earned(v: Tables, m: Member): int {
    if m in v.ledger.balances then v.ledger.balances[m].earnedEpoch else 0
  }

  function Last(v: Tables): Epoch
    requires v.ledger.epochs != []
  {
    v.ledger.epochs[|v.ledger.epochs| - 1]
  }

  ghost predicate WithinCap(v: Tables, m: Member, amount: int)
    requires v.ledger.epochs != []
  {
    (Earned(v, m) + amount) * 10000 <= Last(v).baseBudget * v.policy.rates.memberCapBps
  }

  /** A proposal for a related-party mint to this member carried. */
  ghost predicate CarriedFor(v: Tables, pid: nat, m: Member) {
    && pid < |v.proposals| && Carried(v.proposals[pid])
    && v.proposals[pid].kind.RelatedPartyMint? && v.proposals[pid].kind.recipient == m
  }

  ghost predicate Spent(v: Tables, pid: nat) {
    exists i | 0 <= i < |v.ledger.mints| :: v.ledger.mints[i].leg.proposalId == Some(pid)
  }

  /** A related party needs an unspent proposal, or without one a second approver. */
  ghost predicate RouteMet(v: Tables, input: MintInput, m: Member, role: Option<Role>) {
    Related(role) ==>
      if input.proposalId.Some? then CarriedFor(v, input.proposalId.value, m) && !Spent(v, input.proposalId.value)
      else input.secondApproverId.Some?
  }

  // ---- The budget ----

  function Remaining(v: Tables): int
    requires v.ledger.epochs != []
  {
    Last(v).effectiveBudget - Last(v).regularMinted
  }

  /** The request named is approved and made for this contribution. */
  ghost predicate Usable(v: Tables, input: MintInput) {
    && input.advanceRequestId.Some? && input.advanceRequestId.value < |v.requests|
    && v.requests[input.advanceRequestId.value].status == Approved
    && input.contributionId in v.requests[input.advanceRequestId.value].contributionIds
  }

  ghost predicate UnderSystemCap(v: Tables, advance: int)
    requires v.ledger.epochs != []
  {
    (Last(v).advancedMinted + advance) * 10000 < 2501 * Last(v).baseBudget
  }

  /** Over 1000 bps, or a related party: the community decides. */
  ghost predicate ForCommunity(v: Tables, req: AdvanceRequest, advance: int)
    requires v.ledger.epochs != []
  {
    req.relatedParty || (Last(v).advancedMinted + advance) * 10000 >= 1001 * Last(v).baseBudget
  }

  ghost predicate AttachedRecorded(v: Tables, req: AdvanceRequest) {
    && req.proposalId.Some? && req.proposalId.value < |v.proposals|
    && v.proposals[req.proposalId.value].status == Recorded
  }

  /** From one basis point on: two distinct admins. */
  ghost predicate NeedsSecond(v: Tables, advance: int)
    requires v.ledger.epochs != []
  {
    (Last(v).advancedMinted + advance) * 10000 >= Last(v).baseBudget
  }

  ghost predicate SecondedByOther(req: AdvanceRequest) {
    req.secondApprovedBy.Some? && req.secondApprovedBy.value != req.requestedBy
  }

  ghost predicate TierMet(v: Tables, req: AdvanceRequest, advance: int)
    requires v.ledger.epochs != []
  {
    && UnderSystemCap(v, advance)
    && if ForCommunity(v, req, advance) then AttachedRecorded(v, req)
       else NeedsSecond(v, advance) ==> SecondedByOther(req)
  }

  /** The regular budget covers the amount, or the request covers the rest. */
  ghost predicate Covered(v: Tables, input: MintInput, amount: int)
    requires v.ledger.epochs != []
  {
    || amount <= Remaining(v)
    || (&& Usable(v, input)
        && var req := v.requests[input.advanceRequestId.value];
        && var advance := amount - Remaining(v);
        && advance <= req.requestedAmount && TierMet(v, req, advance)
        && Last(v).debt == 0 && Last(v).advancedMinted + advance <= Last(v).maxAdvance)
  }

  /** The error of a budget that does not cover the amount. */
  ghost function BudgetError(v: Tables, input: MintInput, amount: int): EngineError
    requires v.ledger.epochs != []
  {
    if input.advanceRequestId.None? then InsufficientBudget
    else if input.advanceRequestId.value >= |v.requests| then NotFound
    else if !Usable(v, input) then InvalidStatus
    else
      var req := v.requests[input.advanceRequestId.value];
      var advance := amount - Remaining(v);
      if advance > req.requestedAmount then AdvanceCapExceeded
      else if !UnderSystemCap(v, advance) then AdvanceRateExceeded
      else if !TierMet(v, req, advance) then
        if ForCommunity(v, req, advance) then ProposalRequired else SecondApproverRequired
      else if Last(v).debt != 0 then RollingAdvanceForbidden
      else AdvanceCapExceeded
  }

  // ---- Success and errors ----

  ghost predicate MayMint(v: Tables, input: MintInput, contribution: Option<ContributionRow>, role: Option<Role>) {
    && contribution.Some? && contribution.value.isApproved && !Minted(v, input.contributionId)
    && v.ledger.epochs != []
    && var c := contribution.value;
    && WithinRule(v, c) && WithinCap(v, c.member, c.approvedAmount.value)
    && input.secondApproverId != Some(input.approverId)
    && role.Some? && RouteMet(v, input, c.member, role)
    && Covered(v, input, c.approvedAmount.value)
  }

  ghost function MintError(v: Tables, input: MintInput, contribution: Option<ContributionRow>, role: Option<Role>):
      EngineError
  {
    if contribution.None? then NotFound
    else if !contribution.value.isApproved then NotApproved
    else if Minted(v, input.contributionId) then AlreadyMinted
    else if v.ledger.epochs == [] then EpochNotActive
    else
      var c := contribution.value;
      if !WithinRule(v, c) then RuleViolation
      else if !WithinCap(v, c.member, c.approvedAmount.value) then MemberCapExceeded
      else if input.secondApproverId == Some(input.approverId) then Forbidden
      else if role.None? then NotFound
      else if !RouteMet(v, input, c.member, role) then
        if input.proposalId.None? then SecondApproverRequired
        else if !CarriedFor(v, input.proposalId.value, c.member) then ProposalRequired
        else Conflict
      else BudgetError(v, input, c.approvedAmount.value)
  }

  // ---- Arithmetic: the floored checks as products ----

  lemma CapAsProduct(earned: int, base: int, bps: int)
    requires base >= 0 && bps >= 0
    ensures earned <= base * bps / BPS <==> earned * BPS <= base * bps
  {
    var x := base * bps;
    assert x >= 0;
  }

  /** Each threshold on the floored rate, for a positive advance. */
  lemma RateAsProduct(advanced: int, advance: int, base: int, bps: int)
    requires advanced >= 0 && advance > 0 && base >= 0
    requires CumulativeAdvanceRateBps(advanced, advance, base) == Success(bps)
    ensures bps <= 2500 <==> (advanced + advance) * BPS < 2501 * base
    ensures bps > 1000 <==> (advanced + advance) * BPS >= 1001 * base
    ensures bps > 0 <==> (advanced + advance) * BPS >= base
  {
    RateWithinCap(advanced, advance, base, 2500);
    RateWithinCap(advanced, advance, base, 1000);
    RateWithinCap(advanced, advance, base, 0);
    if base == 0 {
      assert bps == MAX_SAFE_INTEGER;
    } else {
      RateNotNegative((advanced + advance) * BPS, base);
    }
  }

  lemma RateNotNegative(x: int, base: int)
    requires x >= 0 && base > 0
    ensures x / base >= 0
  {
  }

  lemma {:induction false} CeilingIs(rules: seq<Rule>, id: string, amount: int)
    ensures RuleCeiling(rules, Some(id)).Some? && amount <= RuleCeiling(rules, Some(id)).value
      <==> exists i: nat :: FirstRule(rules, id, i) && amount <= rules[i].tokenAmount
  {
    if rules != [] {
      CeilingIs(rules[1..], id, amount);
      if rules[0].id == id {
        assert FirstRule(rules, id, 0);
      } else {
        forall i: nat
          ensures FirstRule(rules[1..], id, i) <==> FirstRule(rules, id, i + 1)
        {
          assert i < |rules[1..]| ==> rules[1..][i] == rules[i + 1];
          if FirstRule(rules[1..], id, i) {
            assert forall j | 0 < j < i + 1 :: rules[j] == rules[1..][j - 1];
          }
          if FirstRule(rules, id, i + 1) {
            assert forall j | 0 <= j < i :: rules[1..][j] == rules[j + 1];
          }
        }
        if i: nat :| FirstRule(rules, id, i) && amount <= rules[i].tokenAmount {
          assert FirstRule(rules[1..], id, i - 1);
        }
        if i: nat :| FirstRule(rules[1..], id, i) && amount <= rules[1..][i].tokenAmount {
          assert FirstRule(rules, id, i + 1);
        }
      }
    }
  }

  // ---- The checks, part by part ----

  /** What the reachable state contributes: budgets and meters in range. */
  ghost predicate Sane(v: Tables) {
    && v.ledger.epochs != []
    && ActiveEpoch(v.ledger.epochs) == Some(|v.ledger.epochs| - 1)
    && Last(v).number == |v.ledger.epochs|
    && Last(v).baseBudget >= 0 && Last(v).debt >= 0 && Last(v).advancedMinted >= 0
    && 0 <= Last(v).regularMinted <= Last(v).effectiveBudget
    && v.policy.rates.memberCapBps >= 0
    && forall rid: nat | rid < |v.requests| && v.requests[rid].status == Approved ::
         v.requests[rid].approvedAmount.None?
  }

  lemma ReachableSane(v: Tables)
    requires Reachable(v) && v.ledger.epochs != []
    ensures Sane(v)
  {
    hide Reachable, LedgerInv, EpochOk, BoardOk, VersionsOk, PolicyOk, AdvancesOk, SingleUseOk, PassedAdvance;
    ReachableInv(v);
    LastEpoch(v);
    EpochFacts(Last(v), |v.ledger.epochs|);
    LedgerOfInv(v);
    LedgerEpochs(v.ledger, v.policy.rates);
    forall rid: nat | rid < |v.requests| && v.requests[rid].status == Approved
      ensures v.requests[rid].approvedAmount.None?
    {
      assert RequestOk(v.requests[rid], rid, v.proposals);
    }
  }

  lemma AmountOutcome(v: Tables, input: MintInput, c: ContributionRow, role: Option<Role>)
    requires Sane(v)
    ensures var r := ContributionAmount(v, input, c, role, Last(v));
      if !WithinRule(v, c) then r == Failure(RuleViolation)
      else if !WithinCap(v, c.member, c.approvedAmount.value) then r == Failure(MemberCapExceeded)
      else if input.secondApproverId == Some(input.approverId) then r == Failure(Forbidden)
      else if role.None? then r == Failure(NotFound)
      else if !RouteMet(v, input, c.member, role) then
        r == Failure(if input.proposalId.None? then SecondApproverRequired
                     else if !CarriedFor(v, input.proposalId.value, c.member) then ProposalRequired else Conflict)
      else r == Success(c.approvedAmount.value)
  {
    hide RuleCeiling, WithinCap, Spent, ProposalConsumed;
    var amount := c.approvedAmount.GetOr(0);
    if c.ruleId.Some? {
      CeilingIs(v.policy.rules, c.ruleId.value, amount);
    } else {
      assert RuleCeiling(v.policy.rules, c.ruleId) == None by { NoId(v.policy.rules); }
    }
    CapCheck(v, c.member, amount);
    if role.Some? {
      GateCheck(v, input, c.member, role);
    }
    hide RelatedPartyGate, RouteMet, CarriedFor;
  }

  lemma NoId(rules: seq<Rule>)
    ensures RuleCeiling(rules, None) == None
  {
  }

  lemma CapCheck(v: Tables, m: Member, amount: int)
    requires Sane(v)
    ensures RateOf(Last(v).baseBudget, v.policy.rates.memberCapBps).Success?
    ensures WithinCap(v, m, amount)
      <==> Row(v.ledger.balances, m).earnedEpoch + amount
             <= RateOf(Last(v).baseBudget, v.policy.rates.memberCapBps).value
  {
    CapAsProduct(Earned(v, m) + amount, Last(v).baseBudget, v.policy.rates.memberCapBps);
  }

  lemma GateCheck(v: Tables, input: MintInput, m: Member, role: Option<Role>)
    requires role.Some?
    ensures var gate := RelatedPartyGate(v, input, m, IsRelatedParty(role.value));
      if RouteMet(v, input, m, role) then gate == Pass
      else gate == Fail(if input.proposalId.None? then SecondApproverRequired
                        else if !CarriedFor(v, input.proposalId.value, m) then ProposalRequired else Conflict)
  {
    if input.proposalId.Some? {
      assert ProposalConsumed(v.ledger.mints, input.proposalId.value) <==> Spent(v, input.proposalId.value);
    }
  }

  /** The split that covers the amount, and the meter it must still fit. */
  lemma SplitOutcome(v: Tables, input: MintInput, amount: int)
    requires Sane(v) && amount > 0
    ensures var r := ResolveSplit(v, input, Last(v), amount);
      if amount <= Remaining(v) then r == Success(Split(amount, 0, None))
      else
        var fits := r.Success? && Last(v).advancedMinted + r.value.advance <= Last(v).maxAdvance;
        && (Covered(v, input, amount) <==> fits)
        && (r.Success? ==> r.value == Split(Remaining(v), amount - Remaining(v), input.advanceRequestId))
        && (r.Success? && !fits ==> BudgetError(v, input, amount) == AdvanceCapExceeded)
        && (r.Failure? ==> r.error == BudgetError(v, input, amount))
  {
    hide UnderSystemCap, ForCommunity, NeedsSecond;
    if amount > Remaining(v) && Usable(v, input) {
      var req := v.requests[input.advanceRequestId.value];
      TierCheck(v, req, amount - Remaining(v));
    }
    hide VerifyAdvanceApproval, TierMet;
  }

  lemma TierCheck(v: Tables, req: AdvanceRequest, advance: int)
    requires Sane(v) && advance > 0
    ensures var o := VerifyAdvanceApproval(v, req, Last(v), advance);
      if TierMet(v, req, advance) then o == Pass
      else o == Fail(if !UnderSystemCap(v, advance) then AdvanceRateExceeded
                     else if ForCommunity(v, req, advance) then ProposalRequired else SecondApproverRequired)
  {
    var rate := CumulativeAdvanceRateBps(Last(v).advancedMinted, advance, Last(v).baseBudget);
    assert rate.Success?;
    RateAsProduct(Last(v).advancedMinted, advance, Last(v).baseBudget, rate.value);
    hide CumulativeAdvanceRateBps;
  }

  /** The mint succeeds exactly on what it asks for, and otherwise throws the
      error of the first thing missing. */
  lemma MintSucceedsIff(v: Tables, input: MintInput, contribution: Option<ContributionRow>, role: Option<Role>)
    requires Reachable(v)
    ensures var r := MintForContribution(v, input, contribution, role);
      && (r.Success? <==> MayMint(v, input, contribution, role))
      && (r.Failure? ==> r.error == MintError(v, input, contribution, role))
  {
    hide Reachable, Inv, WithinRule, WithinCap, RouteMet, CarriedFor, Covered, BudgetError, ContributionAmount;
    hide ResolveSplit, LegsOf, PostMints, MarkExecuted, Sane;
    assert ContributionMinted(v.ledger.mints, input.contributionId) <==> Minted(v, input.contributionId);
    hide Minted, ContributionMinted;
    if v.ledger.epochs == [] {
      assert ActiveEpoch(v.ledger.epochs).None?;
    } else {
      ReachableSane(v);
      SaneActive(v);
      if contribution.Some? {
        var c := contribution.value;
        AmountOutcome(v, input, c, role);
        if c.approvedAmount.Some? && c.approvedAmount.value > 0 {
          SplitOutcome(v, input, c.approvedAmount.value);
          if c.approvedAmount.value <= Remaining(v) {
            CoveredByRegular(v, input, c.approvedAmount.value);
          }
        } else {
          NoRule(v, c);
        }
      }
    }
  }

  lemma SaneActive(v: Tables)
    requires Sane(v)
    ensures v.ledger.epochs != [] && ActiveEpoch(v.ledger.epochs) == Some(|v.ledger.epochs| - 1)
  {
  }

  lemma CoveredByRegular(v: Tables, input: MintInput, amount: int)
    requires v.ledger.epochs != [] && amount <= Remaining(v)
    ensures Covered(v, input, amount)
  {
  }

  lemma NoRule(v: Tables, c: ContributionRow)
    requires c.approvedAmount.None? || c.approvedAmount.value <= 0
    ensures !WithinRule(v, c)
  {
  }

  // ---- What the mint leaves ----

  function RowOf(v: Tables, m: Member): Balance {
    if m in v.ledger.balances then v.ledger.balances[m] else Balance(0, 0, 0, 0, 0, 0)
  }

  /** The event of the part paid from the current budget, active at once. */
  function RegularEvent(v: Tables, input: MintInput, m: Member, related: bool, amount: int): MintEvent {
    var b, n := RowOf(v, m), |v.ledger.epochs|;
    MintEvent(
      Leg(m, Some(if n > 0 then n - 1 else 0), n, Contribution, CurrentEpoch, amount, v.policy.version,
          input.approverId, input.secondApproverId, related, Some(input.contributionId), input.proposalId, None),
      Effective, None, v.ledger.ledgerSeq + 1, b.total, b.total + amount, v.ledger.supply, v.ledger.supply + amount,
      b.active, b.active + amount)
  }

  /** The event of the part paid from the next budget, pending until then; the
      regular part, if any, is stamped before it. */
  function AdvanceEvent(v: Tables, input: MintInput, m: Member, related: bool, regular: int, amount: int): MintEvent {
    var b, n := RowOf(v, m), |v.ledger.epochs|;
    var total, supply, active := b.total + regular, v.ledger.supply + regular, b.active + regular;
    MintEvent(
      Leg(m, Some(if n > 0 then n - 1 else 0), n, Contribution, NextEpochAdvance, amount, v.policy.version,
          input.approverId, input.secondApproverId, related, Some(input.contributionId), input.proposalId,
          input.advanceRequestId),
      Pending, Some(n + 1), v.ledger.ledgerSeq + (if regular > 0 then 2 else 1), total, total + amount,
      supply, supply + amount, active, active)
  }

  /** Only row m of the balances differs, and it is b. */
  ghost predicate OnlyBalance(a: map<Member, Balance>, b: map<Member, Balance>, m: Member, row: Balance) {
    && b.Keys == a.Keys + {m} && b[m] == row
    && forall other | other in a && other != m :: b[other] == a[other]
  }

  /** Only the last epoch differs, by what was added to its meters. */
  ghost predicate OnlyMeters(a: seq<Epoch>, b: seq<Epoch>, regular: int, advance: int) {
    && a != [] && |b| == |a|
    && (forall i | 0 <= i < |a| - 1 :: b[i] == a[i])
    && var e := a[|a| - 1];
    && b[|a| - 1] == e.(regularMinted := e.regularMinted + regular, advancedMinted := e.advancedMinted + advance)
  }

  /** Only the request an advance executes differs. */
  ghost predicate OnlyExecuted(a: seq<AdvanceRequest>, b: seq<AdvanceRequest>, rid: Option<nat>, amount: int) {
    && |b| == |a|
    && forall k: nat | k < |a| ::
         b[k] == if rid == Some(k) then a[k].(status := Executed, approvedAmount := Some(amount)) else a[k]
  }

  /** The two parts minted, and nothing else changed. */
  ghost predicate Mints(v: Tables, v': Tables, outcome: MintOutcome, input: MintInput, m: Member, related: bool,
                        regular: int, advance: int)
  {
    var l, l', b := v.ledger, v'.ledger, RowOf(v, m);
    var events := (if regular > 0 then [RegularEvent(v, input, m, related, regular)] else [])
      + (if advance > 0 then [AdvanceEvent(v, input, m, related, regular, advance)] else []);
    var amount := regular + advance;
    && v' == v.(ledger := l', requests := v'.requests)
    && OnlyExecuted(v.requests, v'.requests, if advance > 0 then input.advanceRequestId else None, advance)
    && l'.supply == l.supply + amount
    && l'.ledgerSeq == l.ledgerSeq + |events|
    && OnlyMeters(l.epochs, l'.epochs, regular, advance)
    && OnlyBalance(l.balances, l'.balances, m,
         Balance(b.total + amount, b.active + regular, b.pending + advance, b.earnedEpoch + regular,
                 b.earnedLifetime + amount, b.reversedLifetime))
    && l'.mints == l.mints + events
    && l'.reversals == l.reversals
    && outcome == MintOutcome(if |events| == 1 then [|l.mints|] else [|l.mints|, |l.mints| + 1],
                              b.total + amount, l.supply + amount)
  }

  /** A successful mint pays what is left of the regular budget from it and the
      rest from the next one. */
  lemma MintLeaves(v: Tables, input: MintInput, contribution: Option<ContributionRow>, role: Option<Role>)
    requires Reachable(v) && MintForContribution(v, input, contribution, role).Success?
    ensures MayMint(v, input, contribution, role)
    ensures var (v', outcome) := MintForContribution(v, input, contribution, role).value;
      var amount := contribution.value.approvedAmount.value;
      var regular := if amount <= Remaining(v) then amount else Remaining(v);
      Mints(v, v', outcome, input, contribution.value.member, Related(role), regular, amount - regular)
  {
    hide Reachable, Inv, WithinRule, WithinCap, RouteMet, Covered, BudgetError, ContributionAmount, Minted;
    hide ResolveSplit, LegsOf, PostMints, MarkExecuted, ContributionMinted, Mints;
    MintSucceedsIff(v, input, contribution, role);
    ReachableSane(v);
    var c := contribution.value;
    AmountOutcome(v, input, c, role);
    RulePositive(v, c);
    var amount := c.approvedAmount.value;
    SplitOutcome(v, input, amount);
    var split := ResolveSplit(v, input, Last(v), amount).value;
    if amount > Remaining(v) {
      RequestThere(v, input, amount);
    }
    SplitMints(v, input, c.member, Related(role), split);
  }

  lemma RulePositive(v: Tables, c: ContributionRow)
    requires WithinRule(v, c)
    ensures c.approvedAmount.Some? && c.approvedAmount.value > 0
  {
  }

  lemma RequestThere(v: Tables, input: MintInput, amount: int)
    requires v.ledger.epochs != [] && Covered(v, input, amount) && amount > Remaining(v)
    ensures input.advanceRequestId.Some? && input.advanceRequestId.value < |v.requests|
  {
  }

  lemma SplitMints(v: Tables, input: MintInput, m: Member, related: bool, split: Split)
    requires Sane(v) && split.regular >= 0 && split.advance >= 0 && split.regular + split.advance > 0
    requires split.requestId == if split.advance > 0 then input.advanceRequestId else None
    requires split.advance > 0 ==> input.advanceRequestId.Some? && input.advanceRequestId.value < |v.requests|
    ensures var legs := LegsOf(v, input, m, |v.ledger.epochs| - 1, Last(v), related, split);
      var amount := split.regular + split.advance;
      var v' := v.(ledger := PostMints(v.ledger, legs),
                   requests := if split.requestId.Some? && split.advance > 0
                               then MarkExecuted(v.requests, split.requestId.value, split.advance) else v.requests);
      Mints(v, v', MintOutcome(seq(|legs|, i => |v.ledger.mints| + i), Row(v.ledger.balances, m).total + amount,
                               v.ledger.supply + amount),
            input, m, related, split.regular, split.advance)
  {
    hide PostMints, PostMint, Mints, MarkExecuted;
    var id := |v.ledger.epochs| - 1;
    var first := ContributionLeg(v, input, m, id, Last(v), related, CurrentEpoch, split.regular, None);
    var second := ContributionLeg(v, input, m, id, Last(v), related, NextEpochAdvance, split.advance, split.requestId);
    var legs := LegsOf(v, input, m, id, Last(v), related, split);
    var ids := seq(|legs|, i => |v.ledger.mints| + i);
    PostMintsUnrolled(v.ledger, first, second);
    PostMintsUnrolled(v.ledger, second, first);
    if split.advance == 0 {
      assert legs == [first] && ids == [|v.ledger.mints|];
      RegularMints(v, input, m, related, first);
    } else if split.regular == 0 {
      assert legs == [second] && ids == [|v.ledger.mints|];
      AdvanceMints(v, input, m, related, second);
    } else {
      assert legs == [first, second] && ids == [|v.ledger.mints|, |v.ledger.mints| + 1];
      BothMint(v, input, m, related, first, second);
    }
  }

  lemma RegularMints(v: Tables, input: MintInput, m: Member, related: bool, leg: Leg)
    requires Sane(v) && leg.amount > 0
    requires leg == ContributionLeg(v, input, m, |v.ledger.epochs| - 1, Last(v), related, CurrentEpoch, leg.amount,
                                    None)
    ensures Mints(v, v.(ledger := PostMint(v.ledger, leg)),
                  MintOutcome([|v.ledger.mints|], Row(v.ledger.balances, m).total + leg.amount,
                              v.ledger.supply + leg.amount),
                  input, m, related, leg.amount, 0)
  {
  }

  lemma AdvanceMints(v: Tables, input: MintInput, m: Member, related: bool, leg: Leg)
    requires Sane(v) && leg.amount > 0
    requires input.advanceRequestId.Some? && input.advanceRequestId.value < |v.requests|
    requires leg == ContributionLeg(v, input, m, |v.ledger.epochs| - 1, Last(v), related, NextEpochAdvance, leg.amount,
                                    input.advanceRequestId)
    ensures Mints(v, v.(ledger := PostMint(v.ledger, leg),
                        requests := MarkExecuted(v.requests, input.advanceRequestId.value, leg.amount)),
                  MintOutcome([|v.ledger.mints|], Row(v.ledger.balances, m).total + leg.amount,
                              v.ledger.supply + leg.amount),
                  input, m, related, 0, leg.amount)
  {
  }

  lemma BothMint(v: Tables, input: MintInput, m: Member, related: bool, first: Leg, second: Leg)
    requires Sane(v) && first.amount > 0 && second.amount > 0
    requires input.advanceRequestId.Some? && input.advanceRequestId.value < |v.requests|
    requires first == ContributionLeg(v, input, m, |v.ledger.epochs| - 1, Last(v), related, CurrentEpoch,
                                      first.amount, None)
    requires second == ContributionLeg(v, input, m, |v.ledger.epochs| - 1, Last(v), related, NextEpochAdvance,
                                       second.amount, input.advanceRequestId)
    ensures var amount := first.amount + second.amount;
      Mints(v, v.(ledger := PostMint(PostMint(v.ledger, first), second),
                  requests := MarkExecuted(v.requests, input.advanceRequestId.value, second.amount)),
            MintOutcome([|v.ledger.mints|, |v.ledger.mints| + 1], Row(v.ledger.balances, m).total + amount,
                        v.ledger.supply + amount),
            input, m, related, first.amount, second.amount)
  {
    hide Stamp, RegularEvent, AdvanceEvent;
    var l2 := PostMint(PostMint(v.ledger, first), second);
    BothEvents(v, input, m, related, first, second);
    assert l2.balances[m] == Credit(Credit(Row(v.ledger.balances, m), first), second);
    assert OnlyMeters(v.ledger.epochs, l2.epochs, first.amount, second.amount);
  }

  lemma BothEvents(v: Tables, input: MintInput, m: Member, related: bool, first: Leg, second: Leg)
    requires Sane(v) && first.amount > 0 && second.amount > 0
    requires first == ContributionLeg(v, input, m, |v.ledger.epochs| - 1, Last(v), related, CurrentEpoch,
                                      first.amount, None)
    requires second == ContributionLeg(v, input, m, |v.ledger.epochs| - 1, Last(v), related, NextEpochAdvance,
                                       second.amount, input.advanceRequestId)
    ensures PostMint(PostMint(v.ledger, first), second).mints
      == v.ledger.mints + [RegularEvent(v, input, m, related, first.amount)]
         + [AdvanceEvent(v, input, m, related, first.amount, second.amount)]
  {
    var l1 := PostMint(v.ledger, first);
    assert Stamp(v.ledger, first) == RegularEvent(v, input, m, related, first.amount);
    assert Stamp(l1, second) == AdvanceEvent(v, input, m, related, first.amount, second.amount);
    hide Stamp, RegularEvent, AdvanceEvent;
    PostAppends(v.ledger, first);
    PostAppends(l1, second);
  }
}
