/** What no later state may change about an earlier one: a reflexive and
    transitive relation between two states of the database. */
module History {
  import opened Wrappers
  import opened Types
  import opened ProposalRules

  ghost predicate IsPrefix<T>(a: seq<T>, b: seq<T>) {
    |a| <= |b| && b[..|a|] == a
  }

  /** Every column is kept, except that a pending event may turn active. */
  ghost predicate MintKept(a: MintEvent, b: MintEvent) {
    b == a || (a.status == Pending && b == a.(status := Effective))
  }

  ghost predicate MintsExtend(a: seq<MintEvent>, b: seq<MintEvent>) {
    |a| <= |b| && forall i | 0 <= i < |a| :: MintKept(a[i], b[i])
  }

  /** Budgets are fixed at opening, meters only grow, a closed row is final. */
  ghost predicate EpochKept(a: Epoch, b: Epoch) {
    && (a.status == Closed ==> b == a)
    && b.number == a.number && b.openingSupply == a.openingSupply && b.inflationBps == a.inflationBps
    && b.baseBudget == a.baseBudget && b.debt == a.debt
    && b.effectiveBudget == a.effectiveBudget && b.maxAdvance == a.maxAdvance
    && b.regularMinted >= a.regularMinted && b.advancedMinted >= a.advancedMinted
  }

  ghost predicate EpochsExtend(a: seq<Epoch>, b: seq<Epoch>) {
    |a| <= |b| && forall i | 0 <= i < |a| :: EpochKept(a[i], b[i])
  }

  function Rank(s: ProposalStatus): int {
    match s
    case Draft => 0
    case Open => 1
    case Ended => 2
    case Recorded => 3
  }

  ghost predicate ProposalKept(a: Proposal, b: Proposal) {
    && b.kind == a.kind && b.options == a.options && b.minimumVoters == a.minimumVoters
    && Rank(a.status) <= Rank(b.status)
    && (a.snapshot.Some? ==> b.snapshot == a.snapshot)
    && (a.status == Recorded ==> b == a)
  }

  ghost predicate ProposalsExtend(a: seq<Proposal>, b: seq<Proposal>) {
    |a| <= |b| && forall pid: nat | pid < |a| :: ProposalKept(a[pid], b[pid])
  }

  ghost predicate SnapshotsExtend(a: map<nat, map<Member, int>>, b: map<nat, map<Member, int>>) {
    forall pid | pid in a :: pid in b && b[pid] == a[pid]
  }

  ghost predicate VotesExtend(a: map<nat, seq<Vote>>, b: map<nat, seq<Vote>>) {
    forall pid: nat :: IsPrefix(VotesOf(a, pid), VotesOf(b, pid))
  }

  /** No ballot arrives after the result was recorded. */
  ghost predicate BallotsFinal(proposals: seq<Proposal>, a: map<nat, seq<Vote>>, b: map<nat, seq<Vote>>) {
    forall pid: nat | pid < |proposals| && proposals[pid].status == Recorded :: VotesOf(b, pid) == VotesOf(a, pid)
  }

  ghost predicate RequestKept(a: AdvanceRequest, b: AdvanceRequest) {
    && b.epochId == a.epochId && b.member == a.member && b.requestedAmount == a.requestedAmount
    && b.rateBps == a.rateBps && b.contributionIds == a.contributionIds
    && b.relatedParty == a.relatedParty && b.requestedBy == a.requestedBy
    && (a.secondApprovedBy.Some? ==> b.secondApprovedBy == a.secondApprovedBy)
    && (a.proposalId.Some? ==> b.proposalId == a.proposalId)
    && (a.status != PendingSecondApproval ==>
          b.status != PendingSecondApproval && b.secondApprovedBy == a.secondApprovedBy)
    && (a.status != PendingProposal ==> b.status != PendingProposal && b.proposalId == a.proposalId)
    && (a.status == Executed || a.status == Rejected ==> b == a)
    && (a.status == Approved ==>
          b == a || (b.status == Executed && b == a.(status := Executed, approvedAmount := b.approvedAmount)))
  }

  ghost predicate RequestsExtend(a: seq<AdvanceRequest>, b: seq<AdvanceRequest>) {
    |a| <= |b| && forall rid: nat | rid < |a| :: RequestKept(a[rid], b[rid])
  }

  ghost predicate Extends(v: Tables, v': Tables) {
    && MintsExtend(v.ledger.mints, v'.ledger.mints)
    && IsPrefix(v.ledger.reversals, v'.ledger.reversals)
    && EpochsExtend(v.ledger.epochs, v'.ledger.epochs)
    && v.ledger.ledgerSeq <= v'.ledger.ledgerSeq
    && IsPrefix(v.versions, v'.versions)
    && ProposalsExtend(v.proposals, v'.proposals)
    && SnapshotsExtend(v.snapshots, v'.snapshots)
    && VotesExtend(v.votes, v'.votes)
    && BallotsFinal(v.proposals, v.votes, v'.votes)
    && RequestsExtend(v.requests, v'.requests)
  }

  lemma ExtendsReflexive(v: Tables)
    ensures Extends(v, v)
  {
  }

  lemma ExtendsTransitive(a: Tables, b: Tables, c: Tables)
    requires Extends(a, b) && Extends(b, c)
    ensures Extends(a, c)
  {
    forall i | 0 <= i < |a.ledger.mints|
      ensures MintKept(a.ledger.mints[i], c.ledger.mints[i])
    {
      assert MintKept(a.ledger.mints[i], b.ledger.mints[i]) && MintKept(b.ledger.mints[i], c.ledger.mints[i]);
    }
    forall i | 0 <= i < |a.ledger.epochs|
      ensures EpochKept(a.ledger.epochs[i], c.ledger.epochs[i])
    {
      assert EpochKept(a.ledger.epochs[i], b.ledger.epochs[i]) && EpochKept(b.ledger.epochs[i], c.ledger.epochs[i]);
    }
    forall pid: nat | pid < |a.proposals|
      ensures ProposalKept(a.proposals[pid], c.proposals[pid])
    {
      assert ProposalKept(a.proposals[pid], b.proposals[pid]) && ProposalKept(b.proposals[pid], c.proposals[pid]);
    }
    forall pid: nat
      ensures IsPrefix(VotesOf(a.votes, pid), VotesOf(c.votes, pid))
    {
      assert IsPrefix(VotesOf(a.votes, pid), VotesOf(b.votes, pid));
      assert IsPrefix(VotesOf(b.votes, pid), VotesOf(c.votes, pid));
      assert VotesOf(c.votes, pid)[..|VotesOf(a.votes, pid)|]
          == VotesOf(c.votes, pid)[..|VotesOf(b.votes, pid)|][..|VotesOf(a.votes, pid)|];
    }
    forall pid: nat | pid < |a.proposals| && a.proposals[pid].status == Recorded
      ensures VotesOf(c.votes, pid) == VotesOf(a.votes, pid)
    {
      assert ProposalKept(a.proposals[pid], b.proposals[pid]);
      assert VotesOf(b.votes, pid) == VotesOf(a.votes, pid);
    }
    forall rid: nat | rid < |a.requests|
      ensures RequestKept(a.requests[rid], c.requests[rid])
    {
      assert RequestKept(a.requests[rid], b.requests[rid]) && RequestKept(b.requests[rid], c.requests[rid]);
    }
    PrefixTransitive(a.ledger.reversals, b.ledger.reversals, c.ledger.reversals);
    PrefixTransitive(a.versions, b.versions, c.versions);
  }

  lemma PrefixTransitive<T>(a: seq<T>, b: seq<T>, c: seq<T>)
    requires IsPrefix(a, b) && IsPrefix(b, c)
    ensures IsPrefix(a, c)
  {
    assert c[..|a|] == c[..|b|][..|a|];
  }
}
