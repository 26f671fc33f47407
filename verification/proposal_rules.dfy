/** Proposals: a frozen snapshot, snapshot-weighted ballots, a tally, and the
    settlement a passed proposal triggers. */
module ProposalRules {
  import opened Wrappers
  import opened Types
  import opened Sums
  import opened LedgerSteps
  import PolicyRules

  const VOTE_WINDOW := 259200000
  const DEFAULT_MINIMUM_VOTERS := 3
  const APPROVE := "approve"
  const REJECT := "reject"

  // ---- Tally ----

  function TotalWeight(votes: seq<Vote>): int {
    if votes == [] then 0 else TotalWeight(votes[..|votes| - 1]) + votes[|votes| - 1].weight
  }

  function WeightOf(votes: seq<Vote>, option: string): int {
    if votes == [] then 0
    else
      var last := votes[|votes| - 1];
      WeightOf(votes[..|votes| - 1], option) + if last.option == option then last.weight else 0
  }

  predicate Voted(votes: seq<Vote>, option: string) {
    exists i | 0 <= i < |votes| :: votes[i].option == option
  }

  /** The option strictly outweighs every other option anyone voted for. */
  ghost predicate Wins(votes: seq<Vote>, option: string) {
    && Voted(votes, option)
    && forall other: string | Voted(votes, other) && other != option :: WeightOf(votes, other) < WeightOf(votes, option)
  }

  /** The tally starts its maximum at -1, so an option needs weight 0 or more. */
  ghost predicate Elected(votes: seq<Vote>, option: string) {
    Wins(votes, option) && WeightOf(votes, option) >= 0
  }

  ghost function Winner(votes: seq<Vote>): (w: Option<string>)
    ensures w.Some? ==> Elected(votes, w.value)
    ensures w.None? ==> forall option: string :: !Elected(votes, option)
  {
    if exists option: string :: Elected(votes, option)
    then
      var option: string :| Elected(votes, option);
      Some(option)
    else None
  }

  lemma WinnerIff(votes: seq<Vote>, option: string)
    ensures Winner(votes) == Some(option) <==> Elected(votes, option)
  {
    if Elected(votes, option) && Winner(votes).Some? {
      OnlyOneWins(votes, option, Winner(votes).value);
    }
  }

  lemma OnlyOneWins(votes: seq<Vote>, a: string, b: string)
    requires Wins(votes, a) && Wins(votes, b)
    ensures a == b
  {
  }

  function Fallback(options: seq<string>): string {
    if REJECT in options then REJECT
    else if options == [] then REJECT
    else options[|options| - 1]
  }

  /** The recorded winner: a tie or an empty ballot falls back. */
  ghost function ResolveOutcome(votes: seq<Vote>, options: seq<string>): string {
    Winner(votes).GetOr(Fallback(options))
  }

  // ---- Lifecycle ----

  datatype ProposalInput = ProposalInput(
    kind: ProposalKind,
    options: seq<string>,
    minimumVoters: Option<int>,
    endTime: Option<int>)

  function Create(v: Tables, input: ProposalInput): Result<(Tables, nat)> {
    if |input.options| < 2 then Failure(ValidationError)
    else
      var row := Proposal(input.kind, Draft, input.options, input.endTime,
                          input.minimumVoters.GetOr(DEFAULT_MINIMUM_VOTERS), None, None);
      Success((v.(proposals := v.proposals + [row]), |v.proposals|))
  }

  function Weights(balances: map<Member, Balance>): map<Member, int> {
    map m | m in balances :: balances[m].active
  }

  datatype ActivateOutcome = AlreadyActive | Activated

  ghost function Activate(v: Tables, pid: nat, now: int): Result<(Tables, ActivateOutcome)> {
    if pid >= |v.proposals| then Failure(NotFound)
    else
      var p := v.proposals[pid];
      if p.status == Open then Success((v, AlreadyActive))
      else if p.status != Draft then Failure(InvalidStatus)
      else match ActiveEpoch(v.ledger.epochs)
        case None => Failure(EpochNotActive)
        case Some(id) =>
          var weights := Weights(v.ledger.balances);
          var cols :=
            SnapshotColumns(v.ledger.epochs[id].number, v.ledger.supply, SumMap(weights), v.policy.version, now);
          var row := p.(status := Open, endTime := Some(p.endTime.GetOr(now + VOTE_WINDOW)), snapshot := Some(cols));
          Success((v.(proposals := v.proposals[pid := row], snapshots := v.snapshots[pid := weights]), Activated))
  }

  function VotesOf(votes: map<nat, seq<Vote>>, pid: nat): seq<Vote> {
    if pid in votes then votes[pid] else []
  }

  function SnapshotOf(snapshots: map<nat, map<Member, int>>, pid: nat): map<Member, int> {
    if pid in snapshots then snapshots[pid] else map[]
  }

  /** The position of the member's ballot, None when there is none. */
  function BallotOf(votes: seq<Vote>, m: Member): (i: Option<nat>)
    ensures i.Some? ==> i.value < |votes| && votes[i.value].member == m
    ensures i.None? ==> forall k | 0 <= k < |votes| :: votes[k].member != m
  {
    if votes == [] then None
    else if votes[|votes| - 1].member == m then Some(|votes| - 1)
    else BallotOf(votes[..|votes| - 1], m)
  }

  datatype VoteOutcome = VoteOutcome(voteIndex: nat, idempotent: bool)

  function CastVote(v: Tables, pid: nat, m: Member, option: string, now: int): Result<(Tables, VoteOutcome)> {
    if pid >= |v.proposals| then Failure(NotFound)
    else
      var p := v.proposals[pid];
      if p.status != Open || (p.endTime.Some? && now > p.endTime.value) then Failure(InvalidStatus)
      else if option !in p.options then Failure(ValidationError)
      else if m !in SnapshotOf(v.snapshots, pid) then Failure(Forbidden)
      else
        var ballots := VotesOf(v.votes, pid);
        match BallotOf(ballots, m)
        case Some(i) => Success((v, VoteOutcome(i, true)))
        case None =>
          var row := Vote(m, option, SnapshotOf(v.snapshots, pid)[m], Row(v.ledger.balances, m).total);
          Success((v.(votes := v.votes[pid := ballots + [row]]), VoteOutcome(|ballots|, false)))
  }

  // ---- Ending ----

  /** Fired only when 'approve' won with quorum. */
  function Settle(v: Tables, pid: nat, kind: ProposalKind): Result<Tables> {
    match kind
    case TokenPolicyChange(rates, rules) => PolicyRules.CreatePendingVersion(v, pid, rates, rules)
    case BudgetAdvance(_, rid) =>
      Success(
        if rid < |v.requests| && v.requests[rid].status == PendingProposal
        then v.(requests := v.requests[rid := v.requests[rid].(status := Approved)])
        else v)
    case _ => Success(v)
  }

  datatype EndOutcome = AlreadyRecorded | EndedWith(result: ResultColumns, quorumMet: bool)

  predicate Due(p: Proposal, now: int) {
    p.status == Open && p.endTime.Some? && p.endTime.value <= now
  }

  ghost function End(v: Tables, pid: nat, now: int): Result<(Tables, EndOutcome)> {
    if pid >= |v.proposals| then Failure(NotFound)
    else
      var p := v.proposals[pid];
      if !Due(p, now) then
        if p.status == Recorded then Success((v, AlreadyRecorded)) else Failure(InvalidStatus)
      else
        var votes := VotesOf(v.votes, pid);
        var quorumMet := |votes| >= p.minimumVoters;
        var winner := ResolveOutcome(votes, p.options);
        var v1 :- if quorumMet && winner == APPROVE then Settle(v, pid, p.kind) else Success(v);
        var result := ResultColumns(now, winner, |votes|, TotalWeight(votes));
        Success((v1.(proposals := v.proposals[pid := p.(status := Recorded, result := Some(result))]),
                 EndedWith(result, quorumMet)))
  }
}
