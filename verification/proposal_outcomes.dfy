/** What each proposal call returns and leaves, for every reachable state and
    every argument, in terms of the columns alone. */
module ProposalOutcomes {
  import opened Wrappers
  import opened Types
  import opened Sums
  import opened LedgerSteps
  import opened ProposalRules
  import opened Invariant
  import opened ServiceInvariants
  import opened Runs
  import opened LedgerTheorems
  import opened VotingTheorems

  const THREE_DAYS := 259200000

  /** Only row pid of the proposals differs, and it is p. */
  ghost predicate OnlyProposal(a: seq<Proposal>, b: seq<Proposal>, pid: nat, p: Proposal) {
    |b| == |a| && pid < |a| && b[pid] == p && forall k | 0 <= k < |a| && k != pid :: b[k] == a[k]
  }

  // ---- Creation ----

  lemma CreateOutcome(v: Tables, input: ProposalInput)
    ensures |input.options| < 2 ==> Create(v, input) == Failure(ValidationError)
    ensures |input.options| >= 2 ==>
      && Create(v, input).Success? && Create(v, input).value.1 == |v.proposals|
      && var v' := Create(v, input).value.0;
      && v' == v.(proposals := v'.proposals)
      && v'.proposals == v.proposals + [
           Proposal(input.kind, Draft, input.options, input.endTime,
                    if input.minimumVoters.Some? then input.minimumVoters.value else 3, None, None)]
  {
  }

  // ---- Activation ----

  /** Every balance row with its active power, and nothing else. */
  ghost predicate FreezesActivePower(v: Tables, snapshot: map<Member, int>) {
    && snapshot.Keys == v.ledger.balances.Keys
    && forall m | m in snapshot ::
         && snapshot[m] == v.ledger.balances[m].active
         && snapshot[m] == Layer(v.ledger.mints, v.ledger.reversals, m, Effective)
  }

  lemma ActivateOutcome(v: Tables, pid: nat, now: int)
    requires Reachable(v)
    ensures var r := Activate(v, pid, now);
      && (r.Success? <==>
            && pid < |v.proposals|
            && (v.proposals[pid].status == Open || (v.proposals[pid].status == Draft && v.ledger.epochs != [])))
      && (r.Failure? ==>
            r.error == (
              if pid >= |v.proposals| then NotFound
              else if v.proposals[pid].status == Recorded then InvalidStatus
              else EpochNotActive))
      && (r.Success? ==>
            if v.proposals[pid].status == Open then r.value == (v, AlreadyActive)
            else r.value.1 == Activated && Opens(v, r.value.0, pid, now))
  {
    hide Reachable, Inv, SumMap, Layer, Row;
    ReachableInv(v);
    LastEpoch(v);
    if pid < |v.proposals| {
      StatusKnown(v, pid);
      if v.proposals[pid].status == Draft && v.ledger.epochs != [] {
        LastNumbered(v);
        var v' := Activate(v, pid, now).value.0;
        forall m | m in v'.snapshots[pid]
          ensures v'.snapshots[pid][m] == Layer(v.ledger.mints, v.ledger.reversals, m, Effective)
        {
          TwoLayersAgree(v, m);
          RowIs(v.ledger.balances, m);
        }
        assert Opens(v, v', pid, now);
      }
    }
  }

  /** A draft opened: the snapshot of the moment, and the window as given or
      three days. */
  ghost predicate Opens(v: Tables, v': Tables, pid: nat, now: int)
    requires pid < |v.proposals|
  {
    var p := v.proposals[pid];
    && v' == v.(proposals := v'.proposals, snapshots := v'.snapshots)
    && v'.snapshots.Keys == v.snapshots.Keys + {pid}
    && (forall k | k in v.snapshots && k != pid :: v'.snapshots[k] == v.snapshots[k])
    && FreezesActivePower(v, v'.snapshots[pid])
    && var columns :=
         SnapshotColumns(|v.ledger.epochs|, v.ledger.supply, SumMap(v'.snapshots[pid]), v.policy.version, now);
    && var closing := if p.endTime.Some? then p.endTime.value else now + THREE_DAYS;
    && OnlyProposal(v.proposals, v'.proposals, pid,
         Proposal(p.kind, Open, p.options, Some(closing), p.minimumVoters, Some(columns), p.result))
  }

  lemma RowIs(balances: map<Member, Balance>, m: Member)
    requires m in balances
    ensures Row(balances, m) == balances[m]
  {
  }

  lemma StatusKnown(v: Tables, pid: nat)
    requires Inv(v) && pid < |v.proposals|
    ensures v.proposals[pid].status in {Draft, Open, Recorded}
  {
    hide Inv, BallotsOk, SnapshotOk, ResultOk;
    BoardOfInv(v);
    assert ProposalOk(v.proposals[pid], pid in v.snapshots, SnapshotOf(v.snapshots, pid), VotesOf(v.votes, pid));
  }

  lemma LastNumbered(v: Tables)
    requires Reachable(v) && v.ledger.epochs != []
    ensures v.ledger.epochs[|v.ledger.epochs| - 1].number == |v.ledger.epochs|
  {
    hide Reachable;
    EpochChain(v, |v.ledger.epochs| - 1);
  }

  // ---- Voting ----

  ghost predicate PastEnd(p: Proposal, now: int) {
    p.endTime.Some? && now > p.endTime.value
  }

  /** A ballot may be cast: the proposal is open and not past its end, the
      option is on the paper, the member in the snapshot. */
  ghost predicate MayVote(v: Tables, pid: nat, m: Member, option: string, now: int) {
    && pid < |v.proposals| && v.proposals[pid].status == Open && !PastEnd(v.proposals[pid], now)
    && option in v.proposals[pid].options
    && pid in v.snapshots && m in v.snapshots[pid]
  }

  /** The member's one ballot: the one cast before, or a new one for this option
      at the weight of the snapshot. */
  ghost predicate Casts(v: Tables, v': Tables, outcome: VoteOutcome, pid: nat, m: Member, option: string)
    requires pid in v.snapshots && m in v.snapshots[pid]
  {
    var ballots := VotesOf(v.votes, pid);
    if exists i | 0 <= i < |ballots| :: ballots[i].member == m
    then v' == v && outcome.idempotent && outcome.voteIndex < |ballots| && ballots[outcome.voteIndex].member == m
    else
      && outcome == VoteOutcome(|ballots|, false)
      && v' == v.(votes := v'.votes)
      && v'.votes.Keys == v.votes.Keys + {pid}
      && (forall k | k in v.votes && k != pid :: v'.votes[k] == v.votes[k])
      && v'.votes[pid] == ballots + [
           Vote(m, option, v.snapshots[pid][m], if m in v.ledger.balances then v.ledger.balances[m].total else 0)]
  }

  lemma CastVoteOutcome(v: Tables, pid: nat, m: Member, option: string, now: int)
    ensures var r := CastVote(v, pid, m, option, now);
      && (r.Success? <==> MayVote(v, pid, m, option, now))
      && (r.Failure? ==>
            r.error == (
              if pid >= |v.proposals| then NotFound
              else if v.proposals[pid].status != Open || PastEnd(v.proposals[pid], now) then InvalidStatus
              else if option !in v.proposals[pid].options then ValidationError
              else Forbidden))
      && (r.Success? ==> Casts(v, r.value.0, r.value.1, pid, m, option))
  {
    hide BallotOf;
    var ballots := VotesOf(v.votes, pid);
    assert BallotOf(ballots, m).Some? <==> exists i | 0 <= i < |ballots| :: ballots[i].member == m;
  }

  // ---- Ending ----

  /** The option that strictly outweighs every other, or with none such
      "reject", or the last option when "reject" is not on the paper. */
  ghost predicate Prevails(votes: seq<Vote>, options: seq<string>, winner: string) {
    || Wins(votes, winner)
    || ((forall o: string :: !Wins(votes, o))
        && winner == if "reject" in options || options == [] then "reject" else options[|options| - 1])
  }

  /** The proposal is open and its end has come. */
  ghost predicate CanEnd(v: Tables, pid: nat, now: int) {
    && pid < |v.proposals| && v.proposals[pid].status == Open
    && v.proposals[pid].endTime.Some? && v.proposals[pid].endTime.value <= now
  }

  ghost predicate InRange(rates: Rates) {
    && 0 <= rates.inflationBps <= 10000 && 0 <= rates.maxAdvanceBps <= 10000 && 0 <= rates.memberCapBps <= 10000
  }

  /** What a proposal that carried does besides being recorded. */
  ghost predicate TakesEffect(v: Tables, v': Tables, pid: nat)
    requires pid < |v.proposals|
  {
    match v.proposals[pid].kind
    case TokenPolicyChange(rates, rules) =>
      && var next := |v.ledger.epochs| + 1;
      && v'.versions == v.versions + [
           PolicyVersion(v.policy.version + 1, next, rates, if rules.Some? then rules.value else v.policy.rules,
                         Some(pid))]
      && v'.policy == Policy(v.policy.version, v.policy.rates, v.policy.rules, Some(|v.versions|), Some(next))
      && v'.requests == v.requests
    case BudgetAdvance(_, rid) =>
      && v'.versions == v.versions && v'.policy == v.policy
      && |v'.requests| == |v.requests|
      && forall k: nat | k < |v.requests| ::
           v'.requests[k] == if k == rid && v.requests[k].status == PendingProposal
                             then v.requests[k].(status := Approved) else v.requests[k]
    case _ => v'.versions == v.versions && v'.policy == v.policy && v'.requests == v.requests
  }

  /** The proposal recorded with its result, and its effect if it carried. */
  ghost predicate Records(v: Tables, v': Tables, outcome: EndOutcome, pid: nat, now: int)
    requires pid < |v.proposals|
  {
    var p, votes := v.proposals[pid], VotesOf(v.votes, pid);
    && outcome.EndedWith?
    && var result := outcome.result;
    && Prevails(votes, p.options, result.winner)
    && result == ResultColumns(now, result.winner, |votes|, TotalWeight(votes))
    && (outcome.quorumMet <==> |votes| >= p.minimumVoters)
    && v'.ledger == v.ledger && v'.snapshots == v.snapshots && v'.votes == v.votes
    && OnlyProposal(v.proposals, v'.proposals, pid,
         Proposal(p.kind, Recorded, p.options, p.endTime, p.minimumVoters, p.snapshot, Some(result)))
    && if outcome.quorumMet && result.winner == "approve" then TakesEffect(v, v', pid)
       else v'.versions == v.versions && v'.policy == v.policy && v'.requests == v.requests
  }

  /** The votes carry the proposal: quorum, and "approve" prevails. */
  ghost predicate VotedIn(v: Tables, pid: nat)
    requires pid < |v.proposals|
  {
    && |VotesOf(v.votes, pid)| >= v.proposals[pid].minimumVoters
    && Prevails(VotesOf(v.votes, pid), v.proposals[pid].options, "approve")
  }

  /** A policy change that carried but cannot be armed. */
  ghost predicate CannotArm(v: Tables, pid: nat)
    requires pid < |v.proposals|
  {
    && VotedIn(v, pid) && v.proposals[pid].kind.TokenPolicyChange?
    && (v.policy.pendingVersionId.Some? || !InRange(v.proposals[pid].kind.rates))
  }

  lemma EndOutcomes(v: Tables, pid: nat, now: int)
    requires Reachable(v)
    ensures var r := End(v, pid, now);
      && (r.Success? <==>
            && pid < |v.proposals|
            && (v.proposals[pid].status == Recorded || (CanEnd(v, pid, now) && !CannotArm(v, pid))))
      && (r.Failure? ==>
            r.error == (
              if pid >= |v.proposals| then NotFound
              else if !CanEnd(v, pid, now) then InvalidStatus
              else if v.policy.pendingVersionId.Some? then Conflict
              else ValidationError))
      && (r.Success? ==>
            if v.proposals[pid].status == Recorded then r.value == (v, AlreadyRecorded)
            else Records(v, r.value.0, r.value.1, pid, now))
  {
    hide Reachable, Inv, TotalWeight, ResolveOutcome, Prevails;
    ReachableInv(v);
    if CanEnd(v, pid, now) {
      OutcomePrevails(v, pid);
      ReachableEpochBehind(v, pid);
      LastEpoch(v);
      LastNumbered(v);
      NextVersionFree(v);
    }
  }

  /** The recorded outcome is the one option that prevails. */
  lemma OutcomePrevails(v: Tables, pid: nat)
    requires Reachable(v) && pid < |v.proposals|
    ensures forall winner: string ::
      Prevails(VotesOf(v.votes, pid), v.proposals[pid].options, winner)
      <==> ResolveOutcome(VotesOf(v.votes, pid), v.proposals[pid].options) == winner
  {
    hide Reachable, WeightOf, Voted;
    var votes := VotesOf(v.votes, pid);
    WeightsFrozen(v, pid);
    forall option: string
      ensures Elected(votes, option) <==> Wins(votes, option)
      ensures Winner(votes) == Some(option) <==> Wins(votes, option)
    {
      WeightNonNegative(votes, option);
      WinnerIff(votes, option);
    }
  }
}
