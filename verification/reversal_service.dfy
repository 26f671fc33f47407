/** The reversal service. */
module ReversalServices {
  import opened Wrappers
  import opened Types
  import opened Sums
  import opened LedgerSteps
  import opened ReversalRules
  import opened Databases

  class ReversalService {
    const db: Database

    constructor (db: Database)
      ensures this.db == db
    {
      this.db := db;
    }

    method ReverseMint(input: ReversalInput) returns (r: Result<nat>)
      modifies db
      ensures Commits(old(db.Value()), db.Value(), ReversalRules.ReverseMint(old(db.Value()), input), r)
    {
      hide IsReversed, AuthorizesReversal, PostReversal;
      if input.reason !in REVERSAL_REASONS { return Failure(InvalidReason); }
      if input.mintId >= |db.mints| { return Failure(NotFound); }
      var mint := db.mints[input.mintId];
      var m := mint.leg.member;
      if m !in db.balances { return Failure(NotFound); }
      var balance := db.balances[m];
      if input.reason == "community_proposal" || mint.leg.relatedParty {
        if input.proposalId.None? { return Failure(ProposalRequired); }
        if !AuthorizesReversal(db.proposals, input.proposalId.value, input.mintId) { return Failure(ProposalRequired); }
      }
      if IsReversed(db.reversals, input.mintId) { return Failure(AlreadyReversed); }
      var amount := input.amount.GetOr(mint.leg.amount);
      if amount <= 0 || amount > mint.leg.amount { return Failure(ValidationError); }

      var isActive := mint.status == Effective;
      var activeDeduct := if isActive then amount else 0;
      var pendingDeduct := if isActive then 0 else amount;
      var totalAfter := balance.total - amount;
      var activeAfter := balance.active - activeDeduct;
      var pendingAfter := balance.pending - pendingDeduct;
      var supplyAfter := db.supply - amount;
      if totalAfter < 0 || activeAfter < 0 || pendingAfter < 0 || supplyAfter < 0 { return Failure(Conflict); }

      r := WriteReversal(input, amount, activeDeduct, pendingDeduct);
    }

    method WriteReversal(input: ReversalInput, amount: int, activeDeduct: int, pendingDeduct: int)
      returns (r: Result<nat>)
      requires input.mintId < |db.mints| && db.mints[input.mintId].leg.member in db.balances
      requires var effective := db.mints[input.mintId].status == Effective;
        activeDeduct == (if effective then amount else 0) && pendingDeduct == amount - activeDeduct
      modifies db
      ensures db.Value() == old(db.Value()).(ledger :=
        PostReversal(old(db.Books()), input.mintId, amount, input.reason, input.approvedBy, input.proposalId))
      ensures r == Success(|old(db.reversals)|)
    {
      var mint := db.mints[input.mintId];
      var m := mint.leg.member;
      var balance := db.balances[m];
      var n := db.AllocateLedgerSeq();
      var id := |db.reversals|;
      db.reversals := db.reversals + [
        ReversalEvent(m, input.mintId, amount, input.reason, balance.total - amount, balance.active - activeDeduct,
                      balance.pending - pendingDeduct, db.supply - amount, input.approvedBy, input.proposalId, n)];
      var row := db.balances[m];
      db.balances := db.balances[m :=
        row.(total := row.total - amount, active := row.active - activeDeduct, pending := row.pending - pendingDeduct,
             reversedLifetime := row.reversedLifetime + amount)];
      db.supply := db.supply - amount;
      r := Success(id);
    }
  }
}
