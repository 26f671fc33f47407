/** The advance service: the request table is the state machine, execution the
    transaction that turns one request into one mint. */
module AdvanceServices {
  import opened Wrappers
  import opened Types
  import opened Calc
  import opened LedgerSteps
  import opened AdvanceRules
  import opened Databases

  /** What posting an executed request does to each row. */
  lemma AdvancePosting(v: Tables, rid: nat, req: AdvanceRequest, epoch: Epoch, amount: int)
    requires req.epochId < |v.ledger.epochs| && v.ledger.epochs[req.epochId] == epoch
    ensures var l := v.ledger;
      var leg := AdvanceLeg(req, rid, epoch, amount, v.policy.version);
      var b := Row(l.balances, req.member);
      PostMint(l, leg) == Ledger(
        l.supply + amount,
        l.ledgerSeq + 1,
        l.epochs[req.epochId := Advanced(epoch, amount)],
        l.balances[req.member := b.(total := b.total + amount, pending := b.pending + amount)],
        l.mints + [MintEvent(leg, Pending, Some(epoch.number + 1), l.ledgerSeq + 1, b.total, b.total + amount,
                             l.supply, l.supply + amount, b.active, b.active)],
        l.reversals)
  {
  }

  class AdvanceService {
    const db: Database

    constructor (db: Database)
      ensures this.db == db
    {
      this.db := db;
    }

    method CreateRequest(input: AdvanceInput, role: Option<Role>) returns (r: Result<RequestSummary>)
      modifies db
      ensures Commits(old(db.Value()), db.Value(), AdvanceRules.CreateRequest(old(db.Value()), input, role), r)
    {
      var locked := ActiveEpoch(db.epochs);
      if locked.None? { return Failure(EpochNotActive); }
      var epoch := db.epochs[locked.value];
      if epoch.debt > 0 { return Failure(RollingAdvanceForbidden); }
      if role.None? { return Failure(NotFound); }
      var related := IsRelatedParty(role.value);
      var bps := CumulativeAdvanceRateBps(epoch.advancedMinted, input.amount, epoch.baseBudget);
      if bps.Failure? { return Failure(bps.error); }
      var status;
      match ResolveAdvanceApproval(bps.value, related, input.special) {
        case SystemForbidden => return Failure(AdvanceRateExceeded);
        case StandardRule => return Failure(Conflict);
        case DualAdmin => status := PendingSecondApproval;
        case CommunityProposal => status := PendingProposal;
      }
      var id := |db.requests|;
      db.requests := db.requests + [
        AdvanceRequest(locked.value, input.member, input.amount, None, Min(bps.value, HARD_CAP_BPS),
                       input.contributionIds, status, related, input.requestedBy, None, None)];
      r := Success(RequestSummary(id, status));
    }

    method SecondApprove(rid: nat, approverId: string) returns (r: Result<RequestSummary>)
      modifies db
      ensures Commits(old(db.Value()), db.Value(), AdvanceRules.SecondApprove(old(db.Value()), rid, approverId), r)
    {
      if rid >= |db.requests| { return Failure(NotFound); }
      var req := db.requests[rid];
      if req.status == Approved {
        if req.secondApprovedBy == Some(approverId) { return Success(RequestSummary(rid, Approved)); }
        return Failure(InvalidStatus);
      }
      if req.status != PendingSecondApproval { return Failure(InvalidStatus); }
      if approverId == req.requestedBy { return Failure(Forbidden); }
      db.requests := db.requests[rid := req.(status := Approved, secondApprovedBy := Some(approverId))];
      r := Success(RequestSummary(rid, Approved));
    }

    method AttachProposal(rid: nat, proposalId: nat) returns (r: Result<RequestSummary>)
      modifies db
      ensures Commits(old(db.Value()), db.Value(), AdvanceRules.AttachProposal(old(db.Value()), rid, proposalId), r)
    {
      if rid >= |db.requests| { return Failure(NotFound); }
      var req := db.requests[rid];
      if req.proposalId == Some(proposalId) { return Success(RequestSummary(rid, req.status)); }
      if req.status != PendingProposal { return Failure(InvalidStatus); }
      if req.proposalId.Some? { return Failure(Conflict); }
      db.requests := db.requests[rid := req.(proposalId := Some(proposalId))];
      r := Success(RequestSummary(rid, PendingProposal));
    }

    method Reject(rid: nat) returns (r: Result<RequestSummary>)
      modifies db
      ensures Commits(old(db.Value()), db.Value(), AdvanceRules.Reject(old(db.Value()), rid), r)
    {
      if rid >= |db.requests| { return Failure(NotFound); }
      var req := db.requests[rid];
      if req.status == Rejected { return Success(RequestSummary(rid, Rejected)); }
      if req.status != PendingSecondApproval && req.status != PendingProposal { return Failure(InvalidStatus); }
      db.requests := db.requests[rid := req.(status := Rejected)];
      r := Success(RequestSummary(rid, Rejected));
    }

    // ---- Execution ----

    method Execute(rid: nat) returns (r: Result<MintOutcome>)
      modifies db
      ensures Commits(old(db.Value()), db.Value(), AdvanceRules.Execute(old(db.Value()), rid), r)
    {
      var before := db.Value();
      r := ExecuteInTransaction(rid);
      if r.Failure? {
        db.Rollback(before);
      }
    }

    method ExecuteInTransaction(rid: nat) returns (r: Result<MintOutcome>)
      modifies db
      ensures Agrees(db.Value(), AdvanceRules.Execute(old(db.Value()), rid), r)
    {
      hide AdvanceRules.ExecuteLocked, MintOfRequest;
      if rid >= |db.requests| { return Failure(NotFound); }
      var req := db.requests[rid];
      if req.status == Executed {
        var prior := MintOfRequest(db.mints, rid);
        if prior.None? { return Failure(Conflict); }
        return Success(ReplayOf(db.mints, prior.value));
      }
      if req.status != Approved { return Failure(InvalidStatus); }
      r := ExecuteLocked(rid, req);
    }

    /** From the epoch row lock on: the prior mint is looked up again before
        anything is decided. */
    method ExecuteLocked(rid: nat, req: AdvanceRequest) returns (r: Result<MintOutcome>)
      requires rid < |db.requests|
      modifies db
      ensures Agrees(db.Value(), AdvanceRules.ExecuteLocked(old(db.Value()), rid, req), r)
    {
      hide PostMint, MintOfRequest, CumulativeAdvanceRateBps, MarkExecuted, AdvanceLeg, ApprovalRecheck;
      if req.epochId >= |db.epochs| || db.epochs[req.epochId].status != Active { return Failure(EpochNotActive); }
      var epoch := db.epochs[req.epochId];
      var prior := MintOfRequest(db.mints, rid);
      if prior.Some? { return Success(ReplayOf(db.mints, prior.value)); }

      var amount := AmountOf(req);
      if epoch.effectiveBudget - epoch.regularMinted >= amount { return Failure(Conflict); }
      if epoch.debt > 0 { return Failure(RollingAdvanceForbidden); }
      var bps := CumulativeAdvanceRateBps(epoch.advancedMinted, amount, epoch.baseBudget);
      if bps.Failure? { return Failure(bps.error); }
      if bps.value > HARD_CAP_BPS { return Failure(AdvanceRateExceeded); }
      if bps.value > db.policy.rates.maxAdvanceBps { return Failure(AdvanceRateExceeded); }
      var approval := RecheckApproval(req, bps.value);
      if approval.Fail? { return Failure(approval.error); }
      r := WriteAdvance(rid, req, epoch, amount);
    }

    /** A recorded proposal when one is attached, otherwise two distinct admins
        for what the rate allows them to decide. */
    method RecheckApproval(req: AdvanceRequest, bps: int) returns (o: Outcome)
      ensures o == ApprovalRecheck(db.Value(), req, bps)
      ensures o.Pass? ==>
        if req.proposalId.Some? then IsRecorded(db.proposals, req.proposalId.value)
        else
          && bps <= PROPOSAL_THRESHOLD_BPS && !req.relatedParty
          && req.secondApprovedBy.Some? && req.secondApprovedBy.value != req.requestedBy
    {
      if req.proposalId.Some? {
        if !IsRecorded(db.proposals, req.proposalId.value) { return Fail(ProposalRequired); }
      } else if bps > PROPOSAL_THRESHOLD_BPS || req.relatedParty {
        return Fail(ProposalRequired);
      } else if req.secondApprovedBy.None? || req.secondApprovedBy.value == req.requestedBy {
        return Fail(SecondApproverRequired);
      }
      o := Pass;
    }

    method WriteAdvance(rid: nat, req: AdvanceRequest, epoch: Epoch, amount: int) returns (r: Result<MintOutcome>)
      requires rid < |db.requests| && req.epochId < |db.epochs| && db.epochs[req.epochId] == epoch
      modifies db
      ensures var v := old(db.Value());
        var l' := PostMint(v.ledger, AdvanceLeg(req, rid, epoch, amount, v.policy.version));
        if epoch.advancedMinted + amount > epoch.maxAdvance then r == Failure(AdvanceCapExceeded)
        else
          && |l'.mints| == |v.ledger.mints| + 1
          && r == Success(ReplayOf(l'.mints, |v.ledger.mints|))
          && db.Value() == v.(ledger := l', requests := MarkExecuted(v.requests, rid, amount))
    {
      hide PostMint, AdvanceLeg, MarkExecuted;
      AdvancePosting(db.Value(), rid, req, epoch, amount);
      var id, balanceAfter := WriteEvent(req, AdvanceLeg(req, rid, epoch, amount, db.policy.version), epoch, amount);
      var applied := db.IncrementAdvancedMintedGuarded(req.epochId, amount);
      if applied == 0 { return Failure(AdvanceCapExceeded); }
      db.MarkRequestExecuted(rid, amount);
      r := Success(MintOutcome([id], balanceAfter, db.supply));
    }

    /** The pending event, the member's balance and the supply. */
    method WriteEvent(req: AdvanceRequest, leg: Leg, epoch: Epoch, amount: int) returns (id: nat, balanceAfter: int)
      modifies db`balances, db`ledgerSeq, db`mints, db`supply
      ensures var b := Row(old(db.balances), req.member);
        && id == |old(db.mints)| && balanceAfter == b.total + amount
        && db.ledgerSeq == old(db.ledgerSeq) + 1
        && db.supply == old(db.supply) + amount
        && db.balances == old(db.balances)[req.member := b.(total := b.total + amount, pending := b.pending + amount)]
        && db.mints == old(db.mints) + [
             MintEvent(leg, Pending, Some(epoch.number + 1), db.ledgerSeq, b.total, b.total + amount,
                       old(db.supply), db.supply, b.active, b.active)]
    {
      var supplyBefore := db.supply;
      var balance := db.LockOrCreateBalance(req.member);
      balanceAfter := balance.total + amount;
      var n := db.AllocateLedgerSeq();
      id := db.InsertMint(
        MintEvent(leg, Pending, Some(epoch.number + 1), n, balance.total, balanceAfter,
                  supplyBefore, supplyBefore + amount, balance.active, balance.active));
      var row := db.balances[req.member];
      db.balances := db.balances[req.member := row.(total := row.total + amount, pending := row.pending + amount)];
      db.supply := db.supply + amount;
    }
  }
}
