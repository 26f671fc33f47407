/** What each advance call returns and leaves, for every reachable state and
    every argument, in terms of the columns alone. */
module AdvanceOutcomes {
  import opened Wrappers
  import opened Types
  import opened Calc
  import opened LedgerSteps
  import opened LedgerInvariant
  import opened AdvanceRules
  import opened Invariant
  import opened Runs
  import opened LedgerTheorems
  import opened GovernanceTheorems
  import DebtTheorems
  import opened MintOutcomes

  // ---- Asking ----

  /** With this amount the cumulative rate is at least so many basis points; an
      epoch without a base has no rate but for nothing. */
  ghost predicate ReachesBps(e: Epoch, amount: int, bps: int) {
    if e.baseBudget == 0 then amount > 0 else (e.advancedMinted + amount) * 10000 >= bps * e.baseBudget
  }

  /** The cumulative rate, rounded down. */
  ghost predicate IsRate(e: Epoch, amount: int, bps: int) {
    if e.baseBudget == 0 then bps == 0 && amount == 0
    else bps * e.baseBudget <= (e.advancedMinted + amount) * 10000 < (bps + 1) * e.baseBudget
  }

  ghost predicate MayAsk(v: Tables, input: AdvanceInput, role: Option<Role>) {
    && v.ledger.epochs != [] && Last(v).debt == 0 && role.Some?
    && input.amount >= 0 && !ReachesBps(Last(v), input.amount, 2501)
    && (Related(role) || input.special || ReachesBps(Last(v), input.amount, 1))
  }

  ghost function AskError(v: Tables, input: AdvanceInput, role: Option<Role>): EngineError {
    if v.ledger.epochs == [] then EpochNotActive
    else if Last(v).debt > 0 then RollingAdvanceForbidden
    else if role.None? then NotFound
    else if input.amount < 0 then ValidationError
    else if ReachesBps(Last(v), input.amount, 2501) then AdvanceRateExceeded
    else Conflict
  }

  /** The request is stored for the active epoch, waiting for the community if
      the member is related, the mint special or the rate over 1000 bps, and
      for a second admin otherwise. */
  ghost predicate Asks(v: Tables, v': Tables, summary: RequestSummary, input: AdvanceInput, role: Option<Role>)
    requires v.ledger.epochs != []
  {
    var status := if Related(role) || input.special || ReachesBps(Last(v), input.amount, 1001)
                  then PendingProposal else PendingSecondApproval;
    && v' == v.(requests := v'.requests)
    && summary == RequestSummary(|v.requests|, status)
    && |v'.requests| == |v.requests| + 1 && v'.requests[..|v.requests|] == v.requests
    && var row := v'.requests[|v.requests|];
    && row == AdvanceRequest(|v.ledger.epochs| - 1, input.member, input.amount, None, row.rateBps,
                             input.contributionIds, status, Related(role), input.requestedBy, None, None)
    && IsRate(Last(v), input.amount, row.rateBps)
  }

  lemma RateIs(e: Epoch, amount: int)
    requires e.advancedMinted >= 0 && e.baseBudget >= 0 && amount >= 0
    requires e.baseBudget == 0 ==> e.advancedMinted == 0
    ensures var r := CumulativeAdvanceRateBps(e.advancedMinted, amount, e.baseBudget);
      && r.Success? && r.value >= 0
      && (r.value > 2500 <==> ReachesBps(e, amount, 2501))
      && (r.value > 1000 <==> ReachesBps(e, amount, 1001))
      && (r.value > 0 <==> ReachesBps(e, amount, 1))
      && (r.value <= 2500 ==> IsRate(e, amount, r.value))
  {
    if e.baseBudget > 0 {
      var x := (e.advancedMinted + amount) * BPS;
      FloorBelow(x, e.baseBudget, 2500);
      FloorBelow(x, e.baseBudget, 1000);
      FloorBelow(x, e.baseBudget, 0);
      FloorBounds(x, e.baseBudget);
    }
  }

  lemma FloorBounds(x: int, d: int)
    requires x >= 0 && d > 0
    ensures x / d >= 0 && (x / d) * d <= x < (x / d + 1) * d
  {
    var q, r := x / d, x % d;
    assert x == q * d + r && 0 <= r < d;
    assert (q + 1) * d == q * d + d;
  }

  lemma NoBaseNoAdvance(v: Tables)
    requires Reachable(v) && v.ledger.epochs != []
    ensures Last(v).baseBudget == 0 ==> Last(v).advancedMinted <= 0
  {
    hide Reachable;
    if Last(v).baseBudget == 0 && Last(v).advancedMinted > 0 {
      DebtTheorems.AdvanceWithinCaps(v, |v.ledger.epochs| - 1);
    }
  }

  lemma AskOutcome(v: Tables, input: AdvanceInput, role: Option<Role>)
    requires Reachable(v)
    ensures var r := CreateRequest(v, input, role);
      && (r.Success? <==> MayAsk(v, input, role))
      && (r.Failure? ==> r.error == AskError(v, input, role))
      && (r.Success? ==> Asks(v, r.value.0, r.value.1, input, role))
  {
    hide Reachable, Inv, ReachesBps, IsRate;
    if v.ledger.epochs == [] {
      assert ActiveEpoch(v.ledger.epochs).None?;
    } else {
      ReachableSane(v);
      NoBaseNoAdvance(v);
      if input.amount >= 0 {
        RateIs(Last(v), input.amount);
        hide CumulativeAdvanceRateBps;
      }
    }
  }

  // ---- Deciding ----

  /** Only request rid differs, and it is row. */
  ghost predicate OnlyRequest(v: Tables, v': Tables, rid: nat, row: AdvanceRequest) {
    && v' == v.(requests := v'.requests)
    && rid < |v.requests| && |v'.requests| == |v.requests| && v'.requests[rid] == row
    && forall k | 0 <= k < |v.requests| && k != rid :: v'.requests[k] == v.requests[k]
  }

  ghost predicate Undecided(req: AdvanceRequest) {
    req.status == PendingSecondApproval || req.status == PendingProposal
  }

  lemma SecondApproveOutcome(v: Tables, rid: nat, approverId: string)
    ensures var r := SecondApprove(v, rid, approverId);
      && (r.Success? <==>
            && rid < |v.requests|
            && var req := v.requests[rid];
            || (req.status == Approved && req.secondApprovedBy == Some(approverId))
            || (req.status == PendingSecondApproval && req.requestedBy != approverId))
      && (r.Failure? ==>
            r.error == (
              if rid >= |v.requests| then NotFound
              else if v.requests[rid].status != PendingSecondApproval then InvalidStatus
              else Forbidden))
      && (r.Success? ==>
            && r.value.1 == RequestSummary(rid, Approved)
            && if v.requests[rid].status == Approved then r.value.0 == v
               else OnlyRequest(v, r.value.0, rid,
                      v.requests[rid].(status := Approved, secondApprovedBy := Some(approverId))))
  {
  }

  lemma AttachOutcome(v: Tables, rid: nat, pid: nat)
    ensures var r := AttachProposal(v, rid, pid);
      && (r.Success? <==>
            && rid < |v.requests|
            && var req := v.requests[rid];
            req.proposalId == Some(pid) || (req.status == PendingProposal && req.proposalId.None?))
      && (r.Failure? ==>
            r.error == (
              if rid >= |v.requests| then NotFound
              else if v.requests[rid].status != PendingProposal then InvalidStatus
              else Conflict))
      && (r.Success? ==>
            && r.value.1 == RequestSummary(rid, v.requests[rid].status)
            && if v.requests[rid].proposalId.Some? then r.value.0 == v
               else OnlyRequest(v, r.value.0, rid, v.requests[rid].(proposalId := Some(pid))))
  {
  }

  lemma RejectOutcome(v: Tables, rid: nat)
    ensures var r := Reject(v, rid);
      && (r.Success? <==> rid < |v.requests| && (v.requests[rid].status == Rejected || Undecided(v.requests[rid])))
      && (r.Failure? ==> r.error == if rid >= |v.requests| then NotFound else InvalidStatus)
      && (r.Success? ==>
            && r.value.1 == RequestSummary(rid, Rejected)
            && if v.requests[rid].status == Rejected then r.value.0 == v
               else OnlyRequest(v, r.value.0, rid, v.requests[rid].(status := Rejected)))
  {
  }

  // ---- Executing ----

  /** The rate stays within the live policy's maximum. */
  ghost predicate WithinPolicyRate(v: Tables, amount: int)
    requires v.ledger.epochs != []
  {
    (Last(v).advancedMinted + amount) * 10000 < (v.policy.rates.maxAdvanceBps + 1) * Last(v).baseBudget
  }

  /** A recorded proposal when one is attached; without one two distinct admins,
      and only where the community need not be asked. */
  ghost predicate ApprovalStands(v: Tables, req: AdvanceRequest)
    requires v.ledger.epochs != []
  {
    if req.proposalId.Some? then AttachedRecorded(v, req)
    else !ForCommunity(v, req, req.requestedAmount) && SecondedByOther(req)
  }

  /** An approved request of the active epoch, more than the regular budget has
      left, within every limit. */
  ghost predicate MayExecute(v: Tables, req: AdvanceRequest) {
    && v.ledger.epochs != [] && req.epochId == |v.ledger.epochs| - 1
    && Remaining(v) < req.requestedAmount && Last(v).debt == 0
    && UnderSystemCap(v, req.requestedAmount) && WithinPolicyRate(v, req.requestedAmount)
    && ApprovalStands(v, req)
    && Last(v).advancedMinted + req.requestedAmount <= Last(v).maxAdvance
  }

  ghost function ExecuteError(v: Tables, req: AdvanceRequest): EngineError {
    if v.ledger.epochs == [] || req.epochId != |v.ledger.epochs| - 1 then EpochNotActive
    else if req.requestedAmount <= Remaining(v) then Conflict
    else if Last(v).debt > 0 then RollingAdvanceForbidden
    else if !UnderSystemCap(v, req.requestedAmount) || !WithinPolicyRate(v, req.requestedAmount)
    then AdvanceRateExceeded
    else if !ApprovalStands(v, req) then
      if req.proposalId.Some? || ForCommunity(v, req, req.requestedAmount) then ProposalRequired
      else SecondApproverRequired
    else AdvanceCapExceeded
  }

  /** The event of an executed request: pending until the next epoch. */
  function SpecialEvent(v: Tables, req: AdvanceRequest, rid: nat): MintEvent {
    var b, n, a := RowOf(v, req.member), |v.ledger.epochs|, req.requestedAmount;
    MintEvent(
      Leg(req.member, Some(req.epochId), n, SpecialReward, NextEpochAdvance, a, v.policy.version, req.requestedBy,
          req.secondApprovedBy, req.relatedParty, None, req.proposalId, Some(rid)),
      Pending, Some(n + 1), v.ledger.ledgerSeq + 1, b.total, b.total + a, v.ledger.supply, v.ledger.supply + a,
      b.active, b.active)
  }

  /** The requested amount minted to the member's pending power, the request
      executed, and nothing else changed. */
  ghost predicate Executes(v: Tables, v': Tables, outcome: MintOutcome, rid: nat)
    requires rid < |v.requests|
  {
    var req := v.requests[rid];
    var l, l', b, a := v.ledger, v'.ledger, RowOf(v, req.member), req.requestedAmount;
    && v' == v.(ledger := l', requests := v'.requests)
    && OnlyExecuted(v.requests, v'.requests, Some(rid), a)
    && l'.supply == l.supply + a && l'.ledgerSeq == l.ledgerSeq + 1
    && OnlyMeters(l.epochs, l'.epochs, 0, a)
    && OnlyBalance(l.balances, l'.balances, req.member, b.(total := b.total + a, pending := b.pending + a))
    && l'.mints == l.mints + [SpecialEvent(v, req, rid)]
    && l'.reversals == l.reversals
    && outcome == MintOutcome([|l.mints|], b.total + a, l.supply + a)
  }

  /** The one event on record for the request, and nothing changed. */
  ghost predicate Replays(v: Tables, v': Tables, outcome: MintOutcome, rid: nat) {
    && v' == v
    && exists i: nat :: i < |v.ledger.mints| && v.ledger.mints[i].leg.requestId == Some(rid)
         && outcome == MintOutcome([i], v.ledger.mints[i].balanceAfter, v.ledger.mints[i].supplyAfter)
  }

  lemma ExecuteOutcome(v: Tables, rid: nat)
    requires Reachable(v)
    ensures var r := Execute(v, rid);
      && (r.Success? <==>
            && rid < |v.requests|
            && var req := v.requests[rid];
            req.status == Executed || (req.status == Approved && MayExecute(v, req)))
      && (r.Failure? ==>
            r.error == (
              if rid >= |v.requests| then NotFound
              else if v.requests[rid].status != Approved then InvalidStatus
              else ExecuteError(v, v.requests[rid])))
      && (r.Success? ==>
            if v.requests[rid].status == Executed then Replays(v, r.value.0, r.value.1, rid)
            else Executes(v, r.value.0, r.value.1, rid))
  {
    hide Reachable, Inv, ExecuteLocked, MayExecute, ExecuteError, Executes, OnceFor;
    if rid < |v.requests| {
      ExecutedIffMinted(v, rid);
      if v.requests[rid].status == Executed {
        var i := MintOfRequest(v.ledger.mints, rid).value;
        assert Replays(v, v, ReplayOf(v.ledger.mints, i), rid);
      } else if v.requests[rid].status == Approved {
        ApprovedOutcome(v, rid);
      }
    }
  }

  lemma ApprovedOutcome(v: Tables, rid: nat)
    requires Reachable(v) && rid < |v.requests| && v.requests[rid].status == Approved
    ensures var req := v.requests[rid];
      var r := ExecuteLocked(v, rid, req);
      && (r.Success? <==> MayExecute(v, req))
      && (r.Failure? ==> r.error == ExecuteError(v, req))
      && (r.Success? ==> Executes(v, r.value.0, r.value.1, rid))
  {
    hide Reachable, Inv, Executes, UnderSystemCap, WithinPolicyRate, ApprovalStands, ForCommunity;
    var req := v.requests[rid];
    ExecutedIffMinted(v, rid);
    assert MintOfRequest(v.ledger.mints, rid).None?;
    ActiveIs(v, req.epochId);
    if v.ledger.epochs != [] && req.epochId == |v.ledger.epochs| - 1 && Remaining(v) < req.requestedAmount {
      ReachableSane(v);
      RatesSigned(v);
      LimitsCheck(v, req);
      AdvancePosted(v, rid);
    } else if v.ledger.epochs != [] {
      ReachableSane(v);
    }
    hide ApprovalRecheck, CumulativeAdvanceRateBps, PostMint, AdvanceLeg, MintOfRequest;
  }

  lemma ActiveIs(v: Tables, id: nat)
    requires Reachable(v)
    ensures id < |v.ledger.epochs| && v.ledger.epochs[id].status == Active <==> id == |v.ledger.epochs| - 1
  {
    hide Reachable;
    if id < |v.ledger.epochs| {
      EpochChain(v, id);
    }
  }

  lemma RatesSigned(v: Tables)
    requires Reachable(v)
    ensures 0 <= v.policy.rates.maxAdvanceBps <= BPS
  {
    hide Reachable, LedgerInv, EpochsOk, RatesLive, OpeningsOk;
    ReachableLedger(v);
    LedgerEpochs(v.ledger, v.policy.rates);
  }

  /** The two rate limits and the recheck, as products of the columns. */
  lemma LimitsCheck(v: Tables, req: AdvanceRequest)
    requires Sane(v) && 0 <= v.policy.rates.maxAdvanceBps <= BPS && req.requestedAmount > 0
    ensures var r := CumulativeAdvanceRateBps(Last(v).advancedMinted, req.requestedAmount, Last(v).baseBudget);
      && r.Success?
      && (r.value <= 2500 <==> UnderSystemCap(v, req.requestedAmount))
      && (r.value <= v.policy.rates.maxAdvanceBps <==> WithinPolicyRate(v, req.requestedAmount))
      && (ApprovalRecheck(v, req, r.value) ==
            if ApprovalStands(v, req) then Pass
            else Fail(if req.proposalId.Some? || ForCommunity(v, req, req.requestedAmount) then ProposalRequired
                      else SecondApproverRequired))
  {
    var r := CumulativeAdvanceRateBps(Last(v).advancedMinted, req.requestedAmount, Last(v).baseBudget);
    RateAsProduct(Last(v).advancedMinted, req.requestedAmount, Last(v).baseBudget, r.value);
    RateWithinCap(Last(v).advancedMinted, req.requestedAmount, Last(v).baseBudget, v.policy.rates.maxAdvanceBps);
    hide CumulativeAdvanceRateBps;
  }

  /** What the posted leg and the marked request come to. */
  lemma AdvancePosted(v: Tables, rid: nat)
    requires Sane(v) && rid < |v.requests| && v.requests[rid].status == Approved
    requires v.requests[rid].epochId == |v.ledger.epochs| - 1
    ensures var req := v.requests[rid];
      var l' := PostMint(v.ledger, AdvanceLeg(req, rid, Last(v), AmountOf(req), v.policy.version));
      && |l'.mints| == |v.ledger.mints| + 1
      && AmountOf(req) == req.requestedAmount
      && Executes(v, v.(ledger := l', requests := MarkExecuted(v.requests, rid, AmountOf(req))),
                  ReplayOf(l'.mints, |v.ledger.mints|), rid)
  {
  }
}
