/** The proposal service: lifecycle, frozen snapshot, ballots and the tally. */
module ProposalServices {
  import opened Wrappers
  import opened Types
  import opened Sums
  import opened LedgerSteps
  import opened ProposalRules
  import opened Databases
  import opened PolicyServices

  // ---- Tally ----

  lemma WeightOfNext(votes: seq<Vote>, i: nat)
    requires i < |votes|
    ensures TotalWeight(votes[..i + 1]) == TotalWeight(votes[..i]) + votes[i].weight
    ensures forall o: string ::
      WeightOf(votes[..i + 1], o) == WeightOf(votes[..i], o) + if votes[i].option == o then votes[i].weight else 0
    ensures forall o: string :: Voted(votes[..i + 1], o) <==> Voted(votes[..i], o) || votes[i].option == o
  {
    var next := votes[..i + 1];
    assert next[..i] == votes[..i] && next[i] == votes[i];
    forall o: string
      ensures Voted(next, o) <==> Voted(votes[..i], o) || votes[i].option == o
    {
      assert forall k | 0 <= k < i :: votes[..i][k] == next[k];
    }
  }

  /** The votes counted by option, with the options voted for, each once. */
  method CountVotes(votes: seq<Vote>) returns (byOption: map<string, int>, order: seq<string>, total: int)
    ensures total == TotalWeight(votes)
    ensures forall o: string :: o in byOption <==> Voted(votes, o)
    ensures forall o | o in byOption :: byOption[o] == WeightOf(votes, o)
    ensures forall o: string :: o in order <==> o in byOption
    ensures forall i, j | 0 <= i < j < |order| :: order[i] != order[j]
  {
    hide WeightOf, TotalWeight, Voted;
    byOption, order, total := map[], [], 0;
    NoVotes(votes);
    for i := 0 to |votes|
      invariant total == TotalWeight(votes[..i])
      invariant forall o: string :: o in byOption <==> Voted(votes[..i], o)
      invariant forall o | o in byOption :: byOption[o] == WeightOf(votes[..i], o)
      invariant forall o: string :: o !in byOption ==> WeightOf(votes[..i], o) == 0
      invariant forall o: string :: o in order <==> o in byOption
      invariant forall i, j | 0 <= i < j < |order| :: order[i] != order[j]
    {
      WeightOfNext(votes, i);
      var vote := votes[i];
      total := total + vote.weight;
      if vote.option !in byOption {
        order := order + [vote.option];
      }
      byOption := byOption[vote.option := (if vote.option in byOption then byOption[vote.option] else 0) + vote.weight];
    }
    assert votes[..|votes|] == votes;
  }

  lemma NoVotes(votes: seq<Vote>)
    ensures TotalWeight(votes[..0]) == 0
    ensures forall o: string :: WeightOf(votes[..0], o) == 0 && !Voted(votes[..0], o)
  {
  }

  /** One pass over the counts: the winner is the option that strictly
      outweighs all others, none when the heaviest is tied. */
  method TallyVotes(votes: seq<Vote>) returns (winner: Option<string>, total: int)
    ensures total == TotalWeight(votes)
    ensures winner == Winner(votes)
  {
    hide WeightOf, TotalWeight, Voted;
    var byOption, order;
    byOption, order, total := CountVotes(votes);
    winner := None;
    var max, tie := -1, false;
    for i := 0 to |order|
      invariant max >= -1 && (winner.None? ==> max == -1)
      invariant forall k | 0 <= k < i :: byOption[order[k]] <= max
      invariant winner.Some? ==>
        max >= 0 && exists k | 0 <= k < i :: order[k] == winner.value && byOption[order[k]] == max
      invariant tie <==> exists k | 0 <= k < i :: byOption[order[k]] == max && winner != Some(order[k])
    {
      var opt := order[i];
      var weight := byOption[opt];
      if weight > max {
        max, winner, tie := weight, Some(opt), false;
      } else if weight == max {
        tie := true;
        assert byOption[order[i]] == max && winner != Some(order[i]);
      }
    }
    if tie {
      var k :| 0 <= k < |order| && byOption[order[k]] == max && winner != Some(order[k]);
      NoneElected(votes, order[k], max, winner);
      winner := None;
    } else {
      WinnerFrom(votes, winner, max);
    }
  }

  /** A tie at the top elects nobody. */
  lemma NoneElected(votes: seq<Vote>, rival: string, max: int, leader: Option<string>)
    requires Voted(votes, rival) && WeightOf(votes, rival) == max && leader != Some(rival)
    requires leader.None? ==> max == -1
    requires leader.Some? ==> Voted(votes, leader.value) && WeightOf(votes, leader.value) == max
    requires forall o: string | Voted(votes, o) :: WeightOf(votes, o) <= max
    ensures Winner(votes) == None
  {
    hide WeightOf, Voted;
  }

  lemma WinnerFrom(votes: seq<Vote>, leader: Option<string>, max: int)
    requires leader.Some? ==> Voted(votes, leader.value) && WeightOf(votes, leader.value) == max >= 0
    requires forall o: string | Voted(votes, o) :: WeightOf(votes, o) <= max
    requires forall o: string | Voted(votes, o) && leader != Some(o) :: WeightOf(votes, o) < max
    requires leader.None? ==> max == -1
    ensures Winner(votes) == leader
  {
    hide WeightOf, Voted;
    if leader.Some? {
      WinnerIff(votes, leader.value);
    }
  }

  /** Settlement neither reads nor writes the proposal rows. */
  lemma SettlesBesideStatus(v: Tables, proposals: seq<Proposal>, pid: nat, kind: ProposalKind)
    ensures Settle(v.(proposals := proposals), pid, kind)
      == match Settle(v, pid, kind)
         case Success(after) => Success(after.(proposals := proposals))
         case Failure(e) => Failure(e)
  {
    hide ActiveEpoch;
  }

  class ProposalService {
    const db: Database
    const policy: PolicyService

    constructor (db: Database, policy: PolicyService)
      ensures this.db == db && this.policy == policy
    {
      this.db, this.policy := db, policy;
    }

    method Create(input: ProposalInput) returns (r: Result<nat>)
      modifies db
      ensures Commits(old(db.Value()), db.Value(), ProposalRules.Create(old(db.Value()), input), r)
    {
      if |input.options| < 2 { return Failure(ValidationError); }
      var id := |db.proposals|;
      db.proposals := db.proposals + [
        Proposal(input.kind, Draft, input.options, input.endTime, input.minimumVoters.GetOr(DEFAULT_MINIMUM_VOTERS),
                 None, None)];
      r := Success(id);
    }

    // ---- Activation ----

    method Activate(pid: nat, now: int) returns (r: Result<ActivateOutcome>)
      modifies db
      ensures Commits(old(db.Value()), db.Value(), ProposalRules.Activate(old(db.Value()), pid, now), r)
    {
      var before := db.Value();
      r := ActivateInTransaction(pid, now);
      if r.Failure? {
        db.Rollback(before);
      }
    }

    method ActivateInTransaction(pid: nat, now: int) returns (r: Result<ActivateOutcome>)
      modifies db
      ensures Agrees(db.Value(), ProposalRules.Activate(old(db.Value()), pid, now), r)
    {
      if pid >= |db.proposals| { return Failure(NotFound); }
      var proposal := db.proposals[pid];
      var moved := db.TransitionProposalStatus(pid, Draft, Open);
      if moved == 0 {
        if proposal.status == Open { return Success(AlreadyActive); }
        return Failure(InvalidStatus);
      }
      var active := ActiveEpoch(db.epochs);
      if active.None? { return Failure(EpochNotActive); }
      var govSupply := GovernanceSupply(db.balances);
      db.snapshots := db.snapshots[pid := map m | m in db.balances :: db.balances[m].active];
      var cols := SnapshotColumns(db.epochs[active.value].number, db.supply, govSupply, db.policy.version, now);
      var endTime := if proposal.endTime.Some? then proposal.endTime.value else now + VOTE_WINDOW;
      db.proposals := db.proposals[pid := db.proposals[pid].(endTime := Some(endTime), snapshot := Some(cols))];
      r := Success(Activated);
    }

    /** The active power of all balance rows, in whatever order they are read. */
    method GovernanceSupply(balances: map<Member, Balance>) returns (sum: int)
      ensures sum == SumMap(Weights(balances))
    {
      sum := 0;
      ghost var weights := Weights(balances);
      var rest := balances;
      while rest.Keys != {}
        invariant rest.Keys <= balances.Keys && forall m | m in rest :: rest[m] == balances[m]
        invariant sum + SumMap(Weights(rest)) == SumMap(weights)
        decreases |rest.Keys|
      {
        var m :| m in rest;
        SumMapSplit(Weights(rest), m);
        assert Weights(rest) - {m} == Weights(rest - {m});
        assert (rest - {m}).Keys == rest.Keys - {m};
        sum := sum + rest[m].active;
        rest := rest - {m};
      }
    }

    // ---- Voting ----

    method CastVote(pid: nat, m: Member, option: string, now: int) returns (r: Result<VoteOutcome>)
      modifies db
      ensures Commits(old(db.Value()), db.Value(), ProposalRules.CastVote(old(db.Value()), pid, m, option, now), r)
    {
      hide BallotOf;
      if pid >= |db.proposals| { return Failure(NotFound); }
      var proposal := db.proposals[pid];
      if proposal.status != Open { return Failure(InvalidStatus); }
      if proposal.endTime.Some? && now > proposal.endTime.value { return Failure(InvalidStatus); }
      if option !in proposal.options { return Failure(ValidationError); }
      var snapshot := SnapshotOf(db.snapshots, pid);
      if m !in snapshot { return Failure(Forbidden); }
      var ballots := VotesOf(db.votes, pid);
      var existing := BallotOf(ballots, m);
      if existing.Some? { return Success(VoteOutcome(existing.value, true)); }
      var total := if m in db.balances then db.balances[m].total else 0;
      db.votes := db.votes[pid := ballots + [Vote(m, option, snapshot[m], total)]];
      r := Success(VoteOutcome(|ballots|, false));
    }

    // ---- Ending ----

    method End(pid: nat, now: int) returns (r: Result<EndOutcome>)
      requires policy.db == db
      modifies db
      ensures Commits(old(db.Value()), db.Value(), ProposalRules.End(old(db.Value()), pid, now), r)
    {
      var before := db.Value();
      r := EndInTransaction(pid, now);
      if r.Failure? {
        db.Rollback(before);
      }
    }

    method EndInTransaction(pid: nat, now: int) returns (r: Result<EndOutcome>)
      requires policy.db == db
      modifies db
      ensures Agrees(db.Value(), ProposalRules.End(old(db.Value()), pid, now), r)
    {
      hide TotalWeight, ProposalRules.ResolveOutcome, ProposalRules.Settle;
      if pid >= |db.proposals| { return Failure(NotFound); }
      var proposal := db.proposals[pid];
      var moved := db.EndProposalIfDue(pid, now);
      if moved == 0 {
        if proposal.status == Recorded { return Success(AlreadyRecorded); }
        return Failure(InvalidStatus);
      }
      var votes := VotesOf(db.votes, pid);
      var voterCount := |votes|;
      var quorumMet := voterCount >= proposal.minimumVoters;
      var winner, total := ResolveOutcome(votes, proposal.options);
      if quorumMet && winner == APPROVE {
        SettlesBesideStatus(old(db.Value()), db.proposals, pid, proposal.kind);
        var settled := Settle(pid, proposal.kind);
        if settled.Fail? { return Failure(settled.error); }
      }
      var result := ResultColumns(now, winner, voterCount, total);
      db.proposals := db.proposals[pid := db.proposals[pid].(status := Recorded, result := Some(result))];
      r := Success(EndedWith(result, quorumMet));
    }

    /** A tie or an empty ballot records 'reject', or the last option when the
        ballot has no 'reject'. */
    method ResolveOutcome(votes: seq<Vote>, options: seq<string>) returns (winner: string, total: int)
      ensures winner == ProposalRules.ResolveOutcome(votes, options) && total == TotalWeight(votes)
    {
      var tallied;
      tallied, total := TallyVotes(votes);
      if tallied.Some? {
        winner := tallied.value;
      } else if REJECT in options {
        winner := REJECT;
      } else {
        winner := if |options| > 0 then options[|options| - 1] else REJECT;
      }
    }

    method Settle(pid: nat, kind: ProposalKind) returns (o: Outcome)
      requires policy.db == db
      modifies db`versions, db`policy, db`requests
      ensures match ProposalRules.Settle(old(db.Value()), pid, kind)
        case Success(after) => o == Pass && db.Value() == after
        case Failure(e) => o == Fail(e)
    {
      match kind {
        case TokenPolicyChange(rates, rules) =>
          o := policy.CreatePendingVersion(pid, rates, rules);
        case BudgetAdvance(_, rid) =>
          if rid < |db.requests| && db.requests[rid].status == PendingProposal {
            db.requests := db.requests[rid := db.requests[rid].(status := Approved)];
          }
          o := Pass;
        case _ =>
          o := Pass;
      }
    }
  }
}
