/** The mint service: one transaction per call, its legs planned with chained
    snapshots, its balance, supply and meters updated in one batch. */
module MintServices {
  import opened Wrappers
  import opened Types
  import opened Calc
  import opened LedgerSteps
  import opened AdvanceRules
  import opened MintRules
  import opened Databases

  /** A mint event before it has a place in the ledger. */
  datatype LegPlan = LegPlan(
    amount: int,
    source: BudgetSource,
    status: GovStatus,
    activationEpoch: Option<int>,
    requestId: Option<nat>,
    balanceBefore: int,
    balanceAfter: int,
    supplyBefore: int,
    supplyAfter: int,
    activeBefore: int,
    activeAfter: int)

  /** The event row a plan turns into once it has its sequence number. */
  function EventOf(plan: LegPlan, leg: Leg, seqNo: int): MintEvent {
    MintEvent(leg, plan.status, plan.activationEpoch, seqNo, plan.balanceBefore, plan.balanceAfter,
              plan.supplyBefore, plan.supplyAfter, plan.activeBefore, plan.activeAfter)
  }

  /** plans[i] is what posting leg i stamps once the legs before it are posted. */
  ghost predicate PlansMatch(plans: seq<LegPlan>, l: Ledger, legs: seq<Leg>) {
    && |plans| == |legs|
    && forall i | 0 <= i < |legs| ::
         && EventOf(plans[i], legs[i], l.ledgerSeq + i + 1) == Stamp(PostMints(l, legs[..i]), legs[i])
         && plans[i].amount == legs[i].amount && plans[i].source == legs[i].source
         && plans[i].requestId == legs[i].requestId
  }

  /** Both parts of a split credited at once. */
  function CreditParts(b: Balance, regular: int, advance: int): Balance {
    b.(total := b.total + (regular + advance), active := b.active + regular, pending := b.pending + advance,
       earnedEpoch := b.earnedEpoch + regular, earnedLifetime := b.earnedLifetime + (regular + advance))
  }

  /** Which meter, if any, the two parts do not fit. */
  function OverBudget(epoch: Epoch, split: Split): Option<EngineError> {
    if epoch.regularMinted + split.regular > epoch.effectiveBudget then Some(InsufficientBudget)
    else if split.advance > 0 && epoch.advancedMinted + split.advance > epoch.maxAdvance then Some(AdvanceCapExceeded)
    else None
  }

  /** The requests after the split used up the one it names, if any. */
  function Consumed(requests: seq<AdvanceRequest>, split: Split): seq<AdvanceRequest> {
    if split.requestId.Some? && split.advance > 0 then MarkExecuted(requests, split.requestId.value, split.advance)
    else requests
  }

  /** Posting the legs of a split one by one is one batched update of the
      balance, the supply and the two meters. */
  lemma BatchedPosting(v: Tables, input: MintInput, m: Member, id: nat, epoch: Epoch, related: bool, split: Split)
    requires id < |v.ledger.epochs| && epoch == v.ledger.epochs[id]
    requires split.regular >= 0 && split.advance >= 0 && split.regular + split.advance > 0
    ensures var legs := LegsOf(v, input, m, id, epoch, related, split);
      var l, l' := v.ledger, PostMints(v.ledger, legs);
      && l'.supply == l.supply + (split.regular + split.advance)
      && l'.ledgerSeq == l.ledgerSeq + |legs|
      && l'.balances == l.balances[m := CreditParts(Row(l.balances, m), split.regular, split.advance)]
      && l'.epochs == l.epochs[id := Advanced(Regular(epoch, split.regular), split.advance)]
      && l'.reversals == l.reversals
  {
    hide PostMint, PostMints;
    var legs := LegsOf(v, input, m, id, epoch, related, split);
    UnfoldPosts(v.ledger, legs);
    if split.regular > 0 {
      PostedRows(v.ledger, legs[0], id, epoch);
      if split.advance > 0 {
        PostedRows(PostMint(v.ledger, legs[0]), legs[1], id, Regular(epoch, split.regular));
      }
    } else {
      PostedRows(v.ledger, legs[0], id, epoch);
    }
  }

  /** What one contribution leg does to each row. */
  lemma PostedRows(l: Ledger, leg: Leg, id: nat, epoch: Epoch)
    requires id < |l.epochs| && epoch == l.epochs[id]
    requires leg.epochId == Some(id) && leg.mintType == Contribution
    ensures var l' := PostMint(l, leg);
      var regular := if leg.source == CurrentEpoch then leg.amount else 0;
      var advance := leg.amount - regular;
      && l'.supply == l.supply + leg.amount
      && l'.ledgerSeq == l.ledgerSeq + 1
      && l'.balances == l.balances[leg.member := CreditParts(Row(l.balances, leg.member), regular, advance)]
      && l'.epochs == l.epochs[id := Advanced(Regular(epoch, regular), advance)]
      && l'.reversals == l.reversals
  {
  }

  lemma UnfoldPosts(l: Ledger, legs: seq<Leg>)
    requires |legs| <= 2
    ensures |legs| >= 1 ==> PostMints(l, legs[..1]) == PostMint(l, legs[0])
    ensures |legs| == 1 ==> PostMints(l, legs) == PostMint(l, legs[0])
    ensures |legs| == 2 ==> PostMints(l, legs) == PostMint(PostMint(l, legs[0]), legs[1])
    ensures PostMints(l, legs[..0]) == l
  {
    if |legs| >= 1 {
      assert legs[..1] == [legs[0]] && [legs[0]][..0] == [];
    }
    if |legs| == 1 {
      assert legs == legs[..1];
    }
  }

  /** What the advance leg of a split stamps after the regular one. */
  lemma SecondStamp(l: Ledger, first: Leg, second: Leg)
    requires first.member == second.member && first.source == CurrentEpoch && second.source == NextEpochAdvance
    ensures var b := Row(l.balances, first.member);
      Stamp(PostMint(l, first), second) == MintEvent(
        second, Pending, Some(second.epochNumber + 1), l.ledgerSeq + 2,
        b.total + first.amount, b.total + first.amount + second.amount,
        l.supply + first.amount, l.supply + first.amount + second.amount,
        b.active + first.amount, b.active + first.amount)
  {
  }

  /** The event table after posting is the old one followed by the planned rows. */
  lemma PlannedEvents(plans: seq<LegPlan>, l: Ledger, legs: seq<Leg>)
    requires PlansMatch(plans, l, legs)
    ensures var table := PostMints(l, legs).mints;
      && |table| == |l.mints| + |plans| && table[..|l.mints|] == l.mints
      && forall i | 0 <= i < |plans| :: table[|l.mints| + i] == EventOf(plans[i], legs[i], l.ledgerSeq + i + 1)
  {
    PostedEvents(l, legs);
    hide PostMints, Stamp, EventOf;
  }

  lemma PlansFitLegs(plans: seq<LegPlan>, v: Tables, legs: seq<Leg>, input: MintInput, m: Member, id: nat, epoch: Epoch,
                     related: bool, split: Split)
    requires legs == LegsOf(v, input, m, id, epoch, related, split) && PlansMatch(plans, v.ledger, legs)
    ensures |plans| == |legs|
    ensures forall i | 0 <= i < |plans| ::
      legs[i] == ContributionLeg(v, input, m, id, epoch, related, plans[i].source, plans[i].amount, plans[i].requestId)
  {
    hide PostMints, Stamp, EventOf;
  }

  /** The tables with the member's balance row in place. */
  function WithRow(v: Tables, m: Member): Tables {
    if m in v.ledger.balances then v
    else v.(ledger := v.ledger.(balances := v.ledger.balances[m := ZERO_BALANCE]))
  }

  /** The checks do not see whether the row was there before. */
  lemma WithRowUnseen(v: Tables, input: MintInput, c: ContributionRow, role: Option<Role>, epoch: Epoch, amount: int)
    ensures var v1 := WithRow(v, c.member);
      && ContributionAmount(v1, input, c, role, epoch) == ContributionAmount(v, input, c, role, epoch)
      && ResolveSplit(v1, input, epoch, amount) == ResolveSplit(v, input, epoch, amount)
  {
    hide RuleCeiling, RateOf, CumulativeAdvanceRateBps, ResolveAdvanceApproval;
  }

  lemma WithRowSamePosts(v: Tables, input: MintInput, m: Member, id: nat, epoch: Epoch, related: bool, split: Split)
    requires split.regular >= 0 && split.advance >= 0 && split.regular + split.advance > 0
    ensures var v1 := WithRow(v, m);
      && LegsOf(v1, input, m, id, epoch, related, split) == LegsOf(v, input, m, id, epoch, related, split)
      && var legs := LegsOf(v, input, m, id, epoch, related, split);
         PostMints(v1.ledger, legs) == PostMints(v.ledger, legs)
  {
    hide PostMints;
    if m !in v.ledger.balances {
      ZeroRowIsHarmless(v.ledger, m, LegsOf(v, input, m, id, epoch, related, split));
    }
  }

  class MintService {
    const db: Database

    constructor (db: Database)
      ensures this.db == db
    {
      this.db := db;
    }

    // ---- Contribution mints ----

    method MintForContribution(input: MintInput, contribution: Option<ContributionRow>, role: Option<Role>)
      returns (r: Result<MintOutcome>)
      modifies db
      ensures Commits(old(db.Value()), db.Value(),
                      MintRules.MintForContribution(old(db.Value()), input, contribution, role), r)
    {
      var before := db.Value();
      r := MintInTransaction(input, contribution, role);
      if r.Failure? {
        db.Rollback(before);
      }
    }

    method MintInTransaction(input: MintInput, contribution: Option<ContributionRow>, role: Option<Role>)
      returns (r: Result<MintOutcome>)
      modifies db
      ensures Agrees(db.Value(), MintRules.MintForContribution(old(db.Value()), input, contribution, role), r)
    {
      hide PostMints, LegsOf, ContributionAmount, ResolveSplit, ContributionMinted, ActiveEpoch, MarkExecuted;
      ghost var v := db.Value();
      if contribution.None? { return Failure(NotFound); }
      var c := contribution.value;
      if !c.isApproved { return Failure(NotApproved); }
      if ContributionMinted(db.mints, input.contributionId) { return Failure(AlreadyMinted); }
      var locked := ActiveEpoch(db.epochs);
      if locked.None? { return Failure(EpochNotActive); }
      var id := locked.value;
      var epoch := db.epochs[id];
      var balance := db.LockOrCreateBalance(c.member);
      assert db.Value() == WithRow(v, c.member);
      var checked := CheckContribution(input, c, role, epoch, balance);
      WithRowUnseen(v, input, c, role, epoch, 0);
      if checked.Failure? { return Failure(checked.error); }
      var amount := checked.value;
      WithRowUnseen(v, input, c, role, epoch, amount);
      var parts := ResolveParts(input, epoch, amount);
      if parts.Failure? { return Failure(parts.error); }
      var split := parts.value;
      r := WriteMint(input, c.member, id, epoch, IsRelatedParty(role.value), split, balance);
      WithRowSamePosts(v, input, c.member, id, epoch, IsRelatedParty(role.value), split);
    }

    /** Steps 5 to 7: the amount under its ceilings, the approvers distinct, a
        related party properly authorized. */
    method CheckContribution(input: MintInput, c: ContributionRow, role: Option<Role>, epoch: Epoch, balance: Balance)
      returns (r: Result<int>)
      requires balance == Row(db.balances, c.member)
      ensures r == ContributionAmount(db.Value(), input, c, role, epoch)
      ensures r.Success? ==> r.value > 0 && role.Some?
    {
      var amount := c.approvedAmount.GetOr(0);
      if amount <= 0 { return Failure(RuleViolation); }
      var ceiling := RuleCeiling(db.policy.rules, c.ruleId);
      if ceiling.None? || amount > ceiling.value { return Failure(RuleViolation); }
      var cap := RateOf(epoch.baseBudget, db.policy.rates.memberCapBps);
      if cap.Failure? { return Failure(cap.error); }
      if balance.earnedEpoch + amount > cap.value { return Failure(MemberCapExceeded); }
      if input.secondApproverId.Some? && input.secondApproverId.value == input.approverId { return Failure(Forbidden); }
      if role.None? { return Failure(NotFound); }
      if IsRelatedParty(role.value) {
        if input.proposalId.Some? {
          var passed := RequireRelatedPartyProposal(db.Value(), input.proposalId.value, c.member);
          if passed.Fail? { return Failure(passed.error); }
        } else if input.secondApproverId.None? {
          return Failure(SecondApproverRequired);
        }
      }
      return Success(amount);
    }

    /** Step 8: all from the regular budget, or the rest of it plus an advance. */
    method ResolveParts(input: MintInput, epoch: Epoch, amount: int) returns (r: Result<Split>)
      ensures r == ResolveSplit(db.Value(), input, epoch, amount)
      ensures r.Success? && amount > 0 ==>
        && r.value.regular >= 0 && r.value.advance >= 0 && r.value.regular + r.value.advance == amount
        && (r.value.advance > 0 ==> r.value.requestId.Some? && r.value.requestId.value < |db.requests|)
    {
      var remaining := epoch.effectiveBudget - epoch.regularMinted;
      if amount <= remaining { return Success(Split(amount, 0, None)); }
      if input.advanceRequestId.None? { return Failure(InsufficientBudget); }
      var rid := input.advanceRequestId.value;
      if rid >= |db.requests| { return Failure(NotFound); }
      var req := db.requests[rid];
      if req.status != Approved || input.contributionId !in req.contributionIds { return Failure(InvalidStatus); }
      var regular := if remaining > 0 then remaining else 0;
      var advance := amount - regular;
      if advance > AmountOf(req) { return Failure(AdvanceCapExceeded); }
      var approval := VerifyAdvanceApproval(db.Value(), req, epoch, advance);
      if approval.Fail? { return Failure(approval.error); }
      if epoch.debt > 0 { return Failure(RollingAdvanceForbidden); }
      return Success(Split(regular, advance, Some(rid)));
    }

    /** Step 9, first half: running values are threaded through the legs. */
    method PlanLegs(balance: Balance, regular: int, advance: int, epochNumber: int, requestId: Option<nat>,
                    ghost legs: seq<Leg>)
      returns (plans: seq<LegPlan>)
      requires |legs| == (if regular > 0 then 1 else 0) + (if advance > 0 then 1 else 0)
      requires forall leg <- legs :: Row(db.balances, leg.member) == balance
      requires forall i, j | 0 <= i < j < |legs| :: legs[i].member == legs[j].member
      requires regular > 0 ==>
        legs[0].source == CurrentEpoch && legs[0].amount == regular && legs[0].requestId == None
      requires advance > 0 ==>
        && var leg := legs[|legs| - 1];
        && leg.source == NextEpochAdvance && leg.amount == advance && leg.requestId == requestId
        && leg.epochNumber == epochNumber
      ensures PlansMatch(plans, db.Books(), legs)
      ensures regular >= 0 && advance >= 0 && legs != [] ==>
        && plans[|plans| - 1].balanceAfter == balance.total + (regular + advance)
        && plans[|plans| - 1].supplyAfter == db.supply + (regular + advance)
    {
      hide PostMint;
      UnfoldPosts(db.Books(), legs);
      if |legs| == 2 {
        SecondStamp(db.Books(), legs[0], legs[1]);
      }
      plans := [];
      var bal, sup, act := balance.total, db.supply, balance.active;
      if regular > 0 {
        plans := plans + [LegPlan(regular, CurrentEpoch, Effective, None, None, bal, bal + regular, sup, sup + regular,
                                  act, act + regular)];
        bal, sup, act := bal + regular, sup + regular, act + regular;
      }
      if advance > 0 {
        plans := plans + [LegPlan(advance, NextEpochAdvance, Pending, Some(epochNumber + 1), requestId,
                                  bal, bal + advance, sup, sup + advance, act, act)];
      }
    }

    /** Steps 9 to 13: the planned events, then the rows they touch. */
    method WriteMint(input: MintInput, m: Member, id: nat, epoch: Epoch, related: bool, split: Split, balance: Balance)
      returns (r: Result<MintOutcome>)
      requires id < |db.epochs| && db.epochs[id] == epoch
      requires m in db.balances && db.balances[m] == balance
      requires split.regular >= 0 && split.advance >= 0 && split.regular + split.advance > 0
      requires split.advance > 0 ==> split.requestId.Some? && split.requestId.value < |db.requests|
      modifies db
      ensures var v := old(db.Value());
        var legs := LegsOf(v, input, m, id, epoch, related, split);
        if OverBudget(epoch, split).Some? then r == Failure(OverBudget(epoch, split).value)
        else
          && r == Success(MintOutcome(seq(|legs|, i => |v.ledger.mints| + i),
                                      balance.total + (split.regular + split.advance),
                                      v.ledger.supply + (split.regular + split.advance)))
          && db.Value() == v.(ledger := PostMints(v.ledger, legs), requests := Consumed(v.requests, split))
    {
      hide PostMints, Stamp, EventOf, PlansMatch, Consumed, OverBudget;
      ghost var v := db.Value();
      ghost var legs := LegsOf(v, input, m, id, epoch, related, split);
      BatchedPosting(v, input, m, id, epoch, related, split);

      var plans := PlanLegs(balance, split.regular, split.advance, epoch.number, split.requestId, legs);
      PlansFitLegs(plans, v, legs, input, m, id, epoch, related, split);
      var ids := WriteEvents(input, m, id, epoch, related, plans, legs);
      var updated := UpdateRows(m, id, epoch, split);
      if updated.Fail? { return Failure(updated.error); }
      var last := plans[|plans| - 1];
      r := Success(MintOutcome(ids, last.balanceAfter, last.supplyAfter));
    }

    /** Steps 10 to 13: each row updated once for the whole amount; a blocked
        meter ends the transaction. */
    method UpdateRows(m: Member, id: nat, epoch: Epoch, split: Split) returns (o: Outcome)
      requires id < |db.epochs| && db.epochs[id] == epoch && m in db.balances
      requires split.advance > 0 ==> split.requestId.Some? && split.requestId.value < |db.requests|
      requires split.advance >= 0
      modifies db`balances, db`supply, db`epochs, db`requests
      ensures if OverBudget(epoch, split).Some? then o == Fail(OverBudget(epoch, split).value)
        else
          && o == Pass
          && db.supply == old(db.supply) + (split.regular + split.advance)
          && db.balances == old(db.balances)[m := CreditParts(old(db.balances)[m], split.regular, split.advance)]
          && db.epochs == old(db.epochs)[id := Advanced(Regular(epoch, split.regular), split.advance)]
          && db.requests == Consumed(old(db.requests), split)
    {
      db.balances := db.balances[m := CreditParts(db.balances[m], split.regular, split.advance)];
      db.supply := db.supply + (split.regular + split.advance);
      var rows := db.IncrementRegularMintedGuarded(id, split.regular);
      if rows == 0 { return Fail(InsufficientBudget); }
      if split.advance > 0 {
        rows := db.IncrementAdvancedMintedGuarded(id, split.advance);
        if rows == 0 { return Fail(AdvanceCapExceeded); }
        db.MarkRequestExecuted(split.requestId.value, split.advance);
      }
      o := Pass;
    }

    /** Step 9, second half: one sequence number and one row per planned leg. */
    method WriteEvents(input: MintInput, m: Member, id: nat, epoch: Epoch, related: bool, plans: seq<LegPlan>,
                       ghost legs: seq<Leg>)
      returns (ids: seq<nat>)
      requires |plans| == |legs| && PlansMatch(plans, db.Books(), legs)
      requires forall i | 0 <= i < |plans| ::
        legs[i] == ContributionLeg(db.Value(), input, m, id, epoch, related, plans[i].source, plans[i].amount,
                                   plans[i].requestId)
      modifies db`mints, db`ledgerSeq
      ensures db.ledgerSeq == old(db.ledgerSeq) + |plans|
      ensures db.mints == PostMints(old(db.Books()), legs).mints
      ensures ids == seq(|plans|, i => |old(db.mints)| + i)
    {
      hide PostMints, Stamp, PlansMatch, EventOf;
      ghost var l := db.Books();
      ghost var table := PostMints(l, legs).mints;
      PlannedEvents(plans, l, legs);
      ids := [];
      for i := 0 to |plans|
        invariant db.ledgerSeq == l.ledgerSeq + i
        invariant db.mints == table[..|l.mints| + i]
        invariant ids == seq(i, k => |l.mints| + k)
      {
        var plan := plans[i];
        var n := db.AllocateLedgerSeq();
        var eid := db.InsertMint(
          EventOf(plan,
                  Leg(m, Some(id), epoch.number, Contribution, plan.source, plan.amount, db.policy.version,
                      input.approverId, input.secondApproverId, related, Some(input.contributionId),
                      input.proposalId, plan.requestId),
                  n));
        ids := ids + [eid];
        assert table[..|l.mints| + i + 1] == table[..|l.mints| + i] + [table[|l.mints| + i]];
      }
    }

    // ---- Genesis ----

    method MintInitialAllocation(allocations: seq<Allocation>, approvedBy: string) returns (r: Result<MintOutcome>)
      modifies db
      ensures Commits(old(db.Value()), db.Value(),
                      MintRules.MintInitialAllocation(old(db.Value()), allocations, approvedBy), r)
    {
      var before := db.Value();
      r := AllocateInTransaction(allocations, approvedBy);
      if r.Failure? {
        db.Rollback(before);
      }
    }

    /** Every allocation updates its own balance row; the supply row is written
        once, after the last of them. */
    method AllocateInTransaction(allocations: seq<Allocation>, approvedBy: string) returns (r: Result<MintOutcome>)
      modifies db
      ensures Agrees(db.Value(), MintRules.MintInitialAllocation(old(db.Value()), allocations, approvedBy), r)
    {
      hide PostMint, PostMints, Seeded, GenesisLeg, GenesisLegs;
      if Seeded(db.mints) { return Failure(AlreadyMinted); }
      ghost var v := db.Value();
      ghost var legs := GenesisLegs(allocations, db.policy.version, approvedBy);
      PostNone(v.ledger, legs);
      var ids: seq<nat> := [];
      var supply, lastBalance := db.supply, 0;
      for i := 0 to |allocations|
        invariant forall k | 0 <= k < i :: allocations[k].amount > 0
        invariant db.Value() == v.(ledger := PostMints(v.ledger, legs[..i]).(supply := v.ledger.supply))
        invariant supply == PostMints(v.ledger, legs[..i]).supply
        invariant lastBalance
               == if i == 0 then 0 else Row(PostMints(v.ledger, legs[..i]).balances, allocations[i - 1].member).total
        invariant ids == seq(i, k => |v.ledger.mints| + k) && |db.mints| == |v.ledger.mints| + i
      {
        if allocations[i].amount <= 0 { return Failure(ValidationError); }
        PostLast(v.ledger, legs, i);
        var eid, balanceAfter := WriteAllocation(allocations[i], supply, approvedBy);
        assert db.Books() == PostMints(v.ledger, legs[..i + 1]).(supply := v.ledger.supply);
        ids := ids + [eid];
        supply, lastBalance := supply + allocations[i].amount, balanceAfter;
      }
      assert legs[..|allocations|] == legs;
      db.supply := db.supply + (supply - db.supply);
      r := Success(MintOutcome(ids, lastBalance, supply));
    }

    /** One turn of the loop. supply is the running value; the supply row still
        holds the value from before the loop. */
    method WriteAllocation(alloc: Allocation, supply: int, approvedBy: string) returns (eid: nat, balanceAfter: int)
      modifies db`balances, db`ledgerSeq, db`mints
      ensures var l := PostMint(old(db.Books()).(supply := supply), GenesisLeg(alloc, db.policy.version, approvedBy));
        && db.Books() == l.(supply := db.supply)
        && l.supply == supply + alloc.amount
        && alloc.member in db.balances && balanceAfter == db.balances[alloc.member].total
      ensures eid == |old(db.mints)| && |db.mints| == eid + 1
    {
      var balance := db.LockOrCreateBalance(alloc.member);
      var n := db.AllocateLedgerSeq();
      balanceAfter := balance.total + alloc.amount;
      eid := db.InsertMint(
        MintEvent(GenesisLeg(alloc, db.policy.version, approvedBy), Effective, None, n,
                  balance.total, balanceAfter, supply, supply + alloc.amount,
                  balance.active, balance.active + alloc.amount));
      var row := db.balances[alloc.member];
      db.balances := db.balances[alloc.member :=
        row.(total := row.total + alloc.amount, active := row.active + alloc.amount,
             earnedLifetime := row.earnedLifetime + alloc.amount)];
      assert db.balances == old(db.balances)[alloc.member :=
        Credit(balance, GenesisLeg(alloc, db.policy.version, approvedBy))];
    }
  }

  lemma PostNone(l: Ledger, legs: seq<Leg>)
    ensures PostMints(l, legs[..0]) == l
  {
  }

  lemma PostLast(l: Ledger, legs: seq<Leg>, i: nat)
    requires i < |legs|
    ensures PostMints(l, legs[..i + 1]) == PostMint(PostMints(l, legs[..i]), legs[i])
  {
    hide PostMint;
    assert legs[..i + 1][..i] == legs[..i];
  }
}
