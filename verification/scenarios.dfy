/** Concrete communities, each reached from seeded rows by service calls, that
    show the conditions of the theorems are needed. Every quorum is at least
    one voter. */
module Scenarios {
  import opened Wrappers
  import opened Types
  import opened Calc
  import opened Sums
  import opened LedgerSteps
  import opened LedgerInvariant
  import opened AdvanceRules
  import opened MintRules
  import opened ProposalRules
  import opened EpochRules
  import opened Invariant
  import opened ServiceInvariants
  import opened Runs
  import opened GovernanceTheorems
  import opened DebtTheorems
  import opened VotingTheorems
  import opened CapTheorems
  import PolicyRules
  import L = LateDecisions

  const RATES := Rates(10000, 10000, 10000)
  const RULES := [Rule("work", 2503)]
  const NO_GROWTH := Rates(0, 2500, 10000)

  // ---- One call after another ----

  lemma Seeded() returns (v: Tables)
    ensures Reachable(v) && v == Initial(RATES, RULES)
  {
    v := Initial(RATES, RULES);
    assert Run(v, []) == v;
  }

  lemma OneMore(v: Tables, call: Call)
    requires Reachable(v)
    ensures Reachable(Apply(v, call))
  {
    hide Reachable, Apply;
    RunOne(v, call);
    ReachableOnward(v, [call]);
  }

  /** The one open epoch: 2503 tokens at its opening, as much to mint. */
  function OnlyEpoch(regular: int, advanced: int): Epoch {
    Epoch(1, Active, 2503, 10000, 2503, 0, 2503, 2503, regular, advanced, 0)
  }

  /** Where ann's community stands. */
  ghost predicate Stage(v: Tables, regular: int, advanced: int, requests: seq<AdvanceRequest>) {
    && Reachable(v)
    && v.ledger.epochs == [OnlyEpoch(regular, advanced)]
    && v.ledger.reversals == [] && "ann" in v.ledger.balances
    && SumMints(v.ledger.mints, OfMember("ann", 1)) == regular
    && SumMints(v.ledger.mints, AdvancedTo("ann", 1)) == advanced
    && v.policy == Policy(1, RATES, RULES, None, None)
    && v.versions == [PolicyVersion(1, 1, RATES, RULES, None)]
    && v.requests == requests
  }

  lemma Founded() returns (v: Tables)
    ensures Stage(v, 0, 0, [])
    ensures |v.ledger.mints| == 1 && v.ledger.mints[0].leg.contributionId.None?
    ensures Row(v.ledger.balances, "ann").earnedEpoch == 0
  {
    hide Reachable;
    var v0 := Seeded();
    var allocations := [Allocation("ann", 2503)];
    var legs := GenesisLegs(allocations, 1, "seed");
    assert legs == [legs[0]] && legs[..0] == [];
    assert PostMints(v0.ledger, legs) == PostMint(v0.ledger, legs[0]);
    var v1 := Apply(v0, AllocateCall(allocations, "seed"));
    OneMore(v0, AllocateCall(allocations, "seed"));
    assert v1.ledger == PostMint(v0.ledger, legs[0]);
    v := Apply(v1, BootstrapCall);
    OneMore(v1, BootstrapCall);
    assert RateOf(2503, 10000) == Success(2503);
    SumMintsAppend([], Stamp(v0.ledger, legs[0]), OfMember("ann", 1));
    SumMintsAppend([], Stamp(v0.ledger, legs[0]), AdvancedTo("ann", 1));
  }

  /** Most of the regular budget is minted. */
  lemma Worked() returns (v: Tables)
    ensures Stage(v, 2000, 0, [])
  {
    hide Reachable;
    var v1 := Founded();
    var input := MintInput(0, "manager", None, None, None);
    var row := ContributionRow("ann", true, Some("work"), Some(2000));
    var call := MintCall(input, Some(row), Some(Ordinary));
    assert RateOf(2503, 10000) == Success(2503);
    assert ActiveEpoch(v1.ledger.epochs) == Some(0);
    assert !ContributionMinted(v1.ledger.mints, 0);
    assert ContributionAmount(v1, input, row, Some(Ordinary), OnlyEpoch(0, 0)) == Success(2000);
    assert ResolveSplit(v1, input, OnlyEpoch(0, 0), 2000) == Success(Split(2000, 0, None));
    var legs := LegsOf(v1, input, "ann", 0, OnlyEpoch(0, 0), false, Split(2000, 0, None));
    assert legs == [legs[0]] && legs[..0] == [];
    assert PostMints(v1.ledger, legs) == PostMint(v1.ledger, legs[0]);
    v := Apply(v1, call);
    OneMore(v1, call);
    assert v.ledger == PostMint(v1.ledger, legs[0]);
    SumMintsAppend(v1.ledger.mints, Stamp(v1.ledger, legs[0]), OfMember("ann", 1));
    SumMintsAppend(v1.ledger.mints, Stamp(v1.ledger, legs[0]), AdvancedTo("ann", 1));
  }

  // ---- Voting ----

  /** Only the board differs. */
  ghost predicate SameButBoard(v: Tables, v': Tables) {
    v' == v.(proposals := v'.proposals, snapshots := v'.snapshots, votes := v'.votes)
  }

  /** Proposal pid is open, due at time 5, and ann's ballot carries it. */
  ghost predicate Carried(v: Tables, pid: nat, kind: ProposalKind) {
    && pid < |v.proposals| && v.proposals[pid].kind == kind
    && Due(v.proposals[pid], 5) && v.proposals[pid].minimumVoters == 1
    && SettlementFires(v, pid)
  }

  /** A proposal of any kind is created, opened and voted for by ann. */
  lemma Approves(v: Tables, kind: ProposalKind) returns (v': Tables, calls: seq<Call>)
    requires Reachable(v) && v.ledger.epochs != [] && "ann" in v.ledger.balances
    ensures v' == Run(v, calls)
    ensures Reachable(v') && SameButBoard(v, v') && Carried(v', |v.proposals|, kind)
    ensures |v'.proposals| == |v.proposals| + 1 && v'.proposals[..|v.proposals|] == v.proposals
    ensures forall pid: nat | pid < |v.proposals| :: VotesOf(v'.votes, pid) == VotesOf(v.votes, pid)
  {
    hide Reachable, Inv, ResolveOutcome, Run;
    ReachableInv(v);
    LastEpoch(v);
    var pid := |v.proposals|;
    NoBallotsYet(v, pid);
    var input := ProposalInput(kind, [APPROVE, REJECT], Some(1), Some(5));
    var v1 := Apply(v, CreateCall(input));
    OneMore(v, CreateCall(input));
    var v2 := Apply(v1, ActivateCall(pid, 0));
    OneMore(v1, ActivateCall(pid, 0));
    assert "ann" in Weights(v.ledger.balances);
    v' := Apply(v2, VoteCall(pid, "ann", APPROVE, 0));
    OneMore(v2, VoteCall(pid, "ann", APPROVE, 0));
    calls := [CreateCall(input), ActivateCall(pid, 0), VoteCall(pid, "ann", APPROVE, 0)];
    ThreeCalls(v, calls);
    var ballot := v'.votes[pid][0];
    assert VotesOf(v'.votes, pid) == [ballot];
    WeightsFrozen(v', pid);
    SoleBallotWins(ballot);
    Outcome([ballot], [APPROVE, REJECT], APPROVE);
  }

  lemma ThreeCalls(v: Tables, calls: seq<Call>)
    requires |calls| == 3
    ensures Run(v, calls) == Apply(Apply(Apply(v, calls[0]), calls[1]), calls[2])
  {
    hide Apply;
    assert calls[..2][..1] == [calls[0]] && calls[..2][1] == calls[1];
    RunOne(v, calls[0]);
  }

  lemma NoBallotsYet(v: Tables, pid: nat)
    requires Inv(v) && pid == |v.proposals|
    ensures VotesOf(v.votes, pid) == []
  {
    hide LedgerInv, VersionsOk, PolicyOk, RequestsOk, AdvancesOk, SingleUseOk, ProposalOk;
  }

  lemma SoleBallotWins(ballot: Vote)
    requires ballot.weight >= 0
    ensures Winner([ballot]) == Some(ballot.option)
  {
    var votes := [ballot];
    assert votes[..0] == [] && WeightOf(votes, ballot.option) == ballot.weight;
    assert votes[0].option == ballot.option;
    assert Elected(votes, ballot.option);
    WinnerIff(votes, ballot.option);
  }

  lemma Outcome(votes: seq<Vote>, options: seq<string>, winner: string)
    requires Winner(votes) == Some(winner)
    ensures ResolveOutcome(votes, options) == winner
  {
  }

  // ---- The advance ----

  function Asked(status: RequestStatus, proposalId: Option<nat>): AdvanceRequest {
    AdvanceRequest(0, "ann", 626, None, 2500, [], status, false, "manager", None, proposalId)
  }

  /** A quarter and a little more is asked for against the next epoch; the
      floored rate is 2500 bps. */
  lemma Requested() returns (v: Tables)
    ensures Stage(v, 2000, 0, [Asked(PendingProposal, None)])
  {
    hide Reachable;
    var v1 := Worked();
    var input := AdvanceInput("ann", 626, "manager", false, []);
    assert CumulativeAdvanceRateBps(0, 626, 2503) == Success(2500);
    v := Apply(v1, RequestCall(input, Some(Ordinary)));
    OneMore(v1, RequestCall(input, Some(Ordinary)));
  }

  /** Its proposal passes. calls lead here from the state where it was asked. */
  lemma Granted() returns (v1: Tables, calls: seq<Call>, v: Tables, pid: nat)
    ensures Stage(v1, 2000, 0, [Asked(PendingProposal, None)]) && v == Run(v1, calls)
    ensures Stage(v, 2000, 0, [Asked(Approved, Some(pid))]) && IsRecorded(v.proposals, pid)
  {
    hide Reachable, ResolveOutcome, Run, SumMints;
    v1 := Requested();
    pid := |v1.proposals|;
    var v2, voting := Approves(v1, BudgetAdvance(626, 0));
    var v3 := Apply(v2, AttachCall(0, pid));
    OneMore(v2, AttachCall(0, pid));
    v := Apply(v3, EndCall(pid, 5));
    OneMore(v3, EndCall(pid, 5));
    calls := voting + [AttachCall(0, pid)] + [EndCall(pid, 5)];
    OneLonger(v1, voting, AttachCall(0, pid));
    OneLonger(v1, voting + [AttachCall(0, pid)], EndCall(pid, 5));
  }

  /** The proposal passes without having been attached: the request is approved
      and no run ever executes it. */
  lemma GrantedButStuck()
    ensures exists v: Tables ::
      && Reachable(v) && |v.requests| == 1 && v.requests[0].status == Approved && PassedAdvance(v.proposals, 0)
      && forall calls: seq<Call> ::
           |Run(v, calls).requests| >= 1
           && (Run(v, calls).requests[0].status == Approved ==> Execute(Run(v, calls), 0).Failure?)
  {
    hide Reachable, ResolveOutcome, PassedAdvance, Run, Execute;
    var v1 := Requested();
    var pid := |v1.proposals|;
    var v2, voting := Approves(v1, BudgetAdvance(626, 0));
    var v := Apply(v2, EndCall(pid, 5));
    OneMore(v2, EndCall(pid, 5));
    assert v.requests == [Asked(Approved, None)];
    RequestAuthority(v, 0);
    forall calls: seq<Call>
      ensures |Run(v, calls).requests| >= 1
      ensures Run(v, calls).requests[0].status == Approved ==> Execute(Run(v, calls), 0).Failure?
    {
      UnattachedNeverExecutes(v, 0, calls);
    }
  }

  lemma OneLonger(v: Tables, calls: seq<Call>, call: Call)
    ensures Run(v, calls + [call]) == Apply(Run(v, calls), call)
  {
    hide Apply;
    assert (calls + [call])[..|calls|] == calls;
  }

  /** It is executed. */
  lemma Advanced() returns (v1: Tables, calls: seq<Call>, v: Tables, requests: seq<AdvanceRequest>)
    ensures Stage(v1, 2000, 0, [Asked(PendingProposal, None)]) && v == Run(v1, calls)
    ensures Stage(v, 2000, 626, requests) && |requests| == 1 && requests[0].status == Executed
  {
    hide Reachable, Run;
    var before, v2, pid;
    v1, before, v2, pid := Granted();
    assert CumulativeAdvanceRateBps(0, 626, 2503) == Success(2500);
    ExecutedIffMinted(v2, 0);
    assert MintOfRequest(v2.ledger.mints, 0).None?;
    v := Apply(v2, ExecuteCall(0));
    OneMore(v2, ExecuteCall(0));
    calls := before + [ExecuteCall(0)];
    OneLonger(v1, before, ExecuteCall(0));
    var leg := AdvanceLeg(v2.requests[0], 0, OnlyEpoch(2000, 0), 626, 1);
    assert v.ledger == PostMint(v2.ledger, leg);
    SumMintsAppend(v2.ledger.mints, Stamp(v2.ledger, leg), OfMember("ann", 1));
    SumMintsAppend(v2.ledger.mints, Stamp(v2.ledger, leg), AdvancedTo("ann", 1));
    requests := MarkExecuted(v2.requests, 0, 626);
  }

  /** A rejection reads the request before its proposal passes and writes after
      it was executed: a rejected request backs a mint. */
  lemma LateRejectionBreaks()
    ensures exists v: Tables, steps: seq<L.Step> ::
      Reachable(v) && !L.AlwaysOnce(v, steps)
  {
    hide Reachable, Run;
    var v1, calls, v, requests := Advanced();
    var read := [L.ReadToDecide(0, 0, L.Rejection)];
    L.WholeCalls(v1, read, calls);
    var steps := read + L.Wholes(calls);
    var all := steps + [L.WriteDecision(0)];
    assert read[..0] == [] && all[..|steps|] == steps;
    var s := L.Interleave(v1, steps);
    assert s.tables == v && s.deciding == map[0 := (0, L.Rejection)];
    assert !L.Timely(s, L.WriteDecision(0));
    L.OnceIffTimely(v1, all);
    assert !L.AllTimely(v1, all) by {
      assert all[|steps|] == L.WriteDecision(0);
    }
  }

  /** A reachable epoch that advanced more than a quarter of its base, and a
      member who was minted more in it than the member cap. */
  lemma LimitsCanBeOverrun()
    ensures exists v: Tables ::
      && Reachable(v) && v.ledger.epochs != []
      && var n := |v.ledger.epochs|;
      && var e := v.ledger.epochs[n - 1];
      && 4 * e.advancedMinted > e.baseBudget
      && MintedTo(v.ledger.mints, "ann", n) > CapOf(e, v.policy.rates)
  {
    hide Reachable, SumMints;
    var v1, calls, v, requests := Advanced();
  }

  // ---- Policy changes ----

  /** Two policy changes carried at once; the first is armed. */
  lemma Armed() returns (v: Tables, second: nat)
    ensures Reachable(v) && v.ledger.reversals == []
    ensures v.ledger.epochs == [OnlyEpoch(2000, 626)]
    ensures v.policy.pendingVersionId.Some? && v.versions != []
    ensures v.versions[|v.versions| - 1].rates == NO_GROWTH
    ensures Carried(v, second, TokenPolicyChange(NO_GROWTH, None))
  {
    hide Reachable, Apply, SettlementFires, SumMints;
    var v0, calls, v1, requests := Advanced();
    var first := |v1.proposals|;
    var v2, voting := Approves(v1, TokenPolicyChange(NO_GROWTH, None));
    second := |v2.proposals|;
    var v3, voting' := Approves(v2, TokenPolicyChange(NO_GROWTH, None));
    CarriedStays(v2, v3, first, TokenPolicyChange(NO_GROWTH, None));
    hide Carried;
    v := Apply(v3, EndCall(first, 5));
    Arms(v3, first, second);
  }

  lemma CarriedStays(v: Tables, v': Tables, pid: nat, kind: ProposalKind)
    requires Carried(v, pid, kind)
    requires |v.proposals| <= |v'.proposals| && v'.proposals[..|v.proposals|] == v.proposals
    requires VotesOf(v'.votes, pid) == VotesOf(v.votes, pid)
    ensures Carried(v', pid, kind)
  {
    hide ResolveOutcome;
    assert v'.proposals[pid] == v'.proposals[..|v.proposals|][pid];
  }

  /** Ending one of two carried policy changes arms it; the other stays due. */
  lemma Arms(v: Tables, first: nat, second: nat)
    requires Reachable(v) && v.ledger.epochs == [OnlyEpoch(2000, 626)] && first != second
    requires v.policy.pendingVersionId.None? && v.policy.version == 1
    requires forall i | 0 <= i < |v.versions| :: v.versions[i].version != 2
    requires Carried(v, first, TokenPolicyChange(NO_GROWTH, None))
    requires Carried(v, second, TokenPolicyChange(NO_GROWTH, None))
    ensures var v' := Apply(v, EndCall(first, 5));
      && Reachable(v') && v'.ledger == v.ledger
      && v'.policy.pendingVersionId.Some? && v'.versions != []
      && v'.versions[|v'.versions| - 1].rates == NO_GROWTH
      && Carried(v', second, TokenPolicyChange(NO_GROWTH, None))
  {
    hide Reachable, ResolveOutcome;
    OneMore(v, EndCall(first, 5));
    assert !PolicyRules.VersionExists(v.versions, 2);
  }

  /** A reachable due proposal, carried by its voters, that cannot be ended. */
  lemma EndCanFail()
    ensures exists v: Tables, pid: nat ::
      && Reachable(v) && pid < |v.proposals| && Due(v.proposals[pid], 5) && v.proposals[pid].minimumVoters == 1
      && SettlementFires(v, pid) && End(v, pid, 5).Failure?
  {
    hide Reachable, End, SettlementFires;
    var v, second := Armed();
    EndRecordsIff(v, second, 5);
  }

  /** Reachable without any reversal: what was advanced in epoch 1 is still
      owed in full at the opening of epoch 3. */
  lemma RateCutLeavesDebt()
    ensures exists v: Tables ::
      && Reachable(v) && v.ledger.reversals == [] && |v.ledger.epochs| == 3
      && v.ledger.epochs[0].advancedMinted == 626 && v.ledger.epochs[2].debt == 626
  {
    hide Reachable, CloseEpoch, Carried;
    var v, second := Armed();
    RateCutKeepsDebt(v);
    var v1 := Apply(v, CloseCall(0));
    OneMore(v, CloseCall(0));
    ClosedKeeps(v, 0);
    var v2 := Apply(v1, CloseCall(1));
    OneMore(v1, CloseCall(1));
    ClosedKeeps(v1, 1);
  }

  /** A rollover touches no reversal, and of the earlier epochs only the row it
      closes, whose meters it keeps. */
  lemma ClosedKeeps(v: Tables, id: nat)
    requires CloseEpoch(v, id).Success?
    ensures var v' := CloseEpoch(v, id).value.0;
      && v'.ledger.reversals == v.ledger.reversals
      && |v.ledger.epochs| <= |v'.ledger.epochs|
      && forall i | 0 <= i < |v.ledger.epochs| ::
           v'.ledger.epochs[i].advancedMinted == v.ledger.epochs[i].advancedMinted
  {
  }

  // ---- A tie without "reject" on the paper ----

  const PAPER := ["keep", "change", APPROVE]

  lemma TwoMembers() returns (v: Tables)
    ensures Reachable(v) && v.ledger.epochs != [] && v.proposals == [] && v.votes == map[]
    ensures v.versions == [PolicyVersion(1, 1, RATES, RULES, None)] && v.policy == Policy(1, RATES, RULES, None, None)
    ensures "ann" in v.ledger.balances && "bob" in v.ledger.balances
    ensures v.ledger.balances["ann"].active == v.ledger.balances["bob"].active == 10
  {
    hide Reachable;
    var v0 := Seeded();
    var allocations := [Allocation("ann", 10), Allocation("bob", 10)];
    var legs := GenesisLegs(allocations, 1, "seed");
    assert legs == [legs[0], legs[1]];
    PostMintsUnrolled(v0.ledger, legs[0], legs[1]);
    var v1 := Apply(v0, AllocateCall(allocations, "seed"));
    OneMore(v0, AllocateCall(allocations, "seed"));
    assert v1.ledger == PostMint(PostMint(v0.ledger, legs[0]), legs[1]);
    v := Apply(v1, BootstrapCall);
    OneMore(v1, BootstrapCall);
    assert RateOf(20, 10000) == Success(20);
  }

  /** A policy change with this paper is open, the given ballots are in. */
  ghost predicate Polling(v: Tables, ballots: seq<Vote>) {
    && Reachable(v) && |v.proposals| == 1 && v.proposals[0].status == Open && Due(v.proposals[0], 5)
    && v.proposals[0].kind == TokenPolicyChange(NO_GROWTH, None) && v.proposals[0].minimumVoters == 2
    && v.proposals[0].options == PAPER
    && VotesOf(v.votes, 0) == ballots
    && v.policy.pendingVersionId.None?
  }

  ghost predicate TenEach(weights: map<Member, int>) {
    && "ann" in weights && "bob" in weights
    && weights["ann"] == weights["bob"] == 10
  }

  lemma PollOpened() returns (v: Tables)
    ensures Polling(v, []) && TenEach(SnapshotOf(v.snapshots, 0)) && v.proposals[0].endTime == Some(5)
  {
    hide Reachable, Inv;
    var v0 := TwoMembers();
    ReachableInv(v0);
    LastEpoch(v0);
    var input := ProposalInput(TokenPolicyChange(NO_GROWTH, None), PAPER, Some(2), Some(5));
    var v1 := Apply(v0, CreateCall(input));
    OneMore(v0, CreateCall(input));
    v := Apply(v1, ActivateCall(0, 0));
    OneMore(v1, ActivateCall(0, 0));
    assert SnapshotOf(v.snapshots, 0) == Weights(v0.ledger.balances);
  }

  lemma BallotCast(v: Tables, ballots: seq<Vote>, m: Member, option: string) returns (v': Tables, row: Vote)
    requires Polling(v, ballots) && v.proposals[0].endTime == Some(5)
    requires m in SnapshotOf(v.snapshots, 0) && option in PAPER
    requires BallotOf(ballots, m).None?
    ensures Polling(v', ballots + [row]) && v'.proposals == v.proposals && v'.snapshots == v.snapshots
    ensures row.member == m && row.option == option && row.weight == SnapshotOf(v.snapshots, 0)[m]
  {
    hide Reachable, BallotOf;
    v' := Apply(v, VoteCall(0, m, option, 0));
    OneMore(v, VoteCall(0, m, option, 0));
    row := VotesOf(v'.votes, 0)[|ballots|];
  }

  /** Two ballots, none of them for "approve", and no option wins. */
  ghost predicate Undecided(ballots: seq<Vote>) {
    |ballots| == 2 && (forall vote <- ballots :: vote.option != APPROVE) && Winner(ballots) == None
  }

  /** Ann and bob each vote for another option, neither of them "approve". */
  lemma Tied() returns (v: Tables)
    ensures exists ballots :: Polling(v, ballots) && Undecided(ballots)
  {
    hide Polling, Winner;
    assert PAPER[0] == "keep" && PAPER[1] == "change";
    var v0 := PollOpened();
    var v1, first := BallotCast(v0, [], "ann", "keep");
    assert [] + [first] == [first];
    assert BallotOf([first], "bob").None?;
    var second;
    v, second := BallotCast(v1, [first], "bob", "change");
    assert [first] + [second] == [first, second];
    TieElectsNobody(first, second);
  }

  lemma TieElectsNobody(a: Vote, b: Vote)
    requires a.option != b.option && a.weight == b.weight
    ensures Winner([a, b]) == None
  {
    var votes := [a, b];
    assert votes == [] + [a] + [b];
    forall option: string
      ensures WeightOf(votes, option)
        == (if a.option == option then a.weight else 0) + if b.option == option then b.weight else 0
    {
      WeightOfAppend([], a, option);
      WeightOfAppend([] + [a], b, option);
    }
    assert WeightOf(votes, a.option) == a.weight && WeightOf(votes, b.option) == b.weight;
    assert votes[0].option == a.option && votes[1].option == b.option;
  }

  /** Without "reject" on the paper a vote that nobody won settles: the quorum
      of two is met, nobody voted "approve", and the policy change is armed. */
  lemma TieCanSettle()
    ensures exists v: Tables, pid: nat, now: int ::
      && Reachable(v) && pid < |v.proposals| && Due(v.proposals[pid], now)
      && v.proposals[pid].minimumVoters == 2 == |VotesOf(v.votes, pid)|
      && (forall vote <- VotesOf(v.votes, pid) :: vote.option != APPROVE)
      && v.policy.pendingVersionId.None?
      && End(v, pid, now).Success? && End(v, pid, now).value.0.policy.pendingVersionId.Some?
  {
    hide Reachable, Winner;
    var v := Tied();
    var ballots :| Polling(v, ballots) && Undecided(ballots);
    assert REJECT !in PAPER;
    EndRecordsIff(v, 0, 5);
  }
}
