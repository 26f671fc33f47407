/** Votes weigh what the activation snapshot says, the tally elects a strict
    plurality whatever the order of the ballots, and settlement fires exactly
    when it should. */
module VotingTheorems {
  import opened Wrappers
  import opened Types
  import opened Sums
  import opened LedgerSteps
  import opened ProposalRules
  import opened Invariant
  import opened History
  import opened ServiceInvariants
  import opened Runs
  import opened CallShapes
  import opened GovernanceTheorems
  import opened LedgerInvariant
  import opened LedgerTheorems
  import opened EpochRules
  import PolicyRules

  // ---- Frozen weights ----

  function Voters(votes: seq<Vote>): set<Member> {
    set i | 0 <= i < |votes| :: votes[i].member
  }

  /** Ballots of distinct members, at snapshot weight, take their part of the
      snapshot and no more. */
  lemma {:induction false} BallotsWithinSnapshot(votes: seq<Vote>, weights: map<Member, int>, options: seq<string>)
    requires BallotsOk(votes, weights, options)
    ensures TotalWeight(votes) + SumMap(weights - Voters(votes)) == SumMap(weights)
  {
    if votes == [] {
      assert weights - Voters(votes) == weights;
    } else {
      var init := votes[..|votes| - 1];
      var last := votes[|votes| - 1];
      assert forall i | 0 <= i < |init| :: init[i] == votes[i];
      BallotsWithinSnapshot(init, weights, options);
      assert last.member !in Voters(init);
      assert Voters(votes) == Voters(init) + {last.member};
      SumMapSplit(weights - Voters(init), last.member);
      assert weights - Voters(init) - {last.member} == weights - Voters(votes);
    }
  }

  /** In every reachable state: one ballot a member, each at its snapshot
      weight, together no more than the governance supply of the snapshot. */
  lemma WeightsFrozen(v: Tables, pid: nat)
    requires Reachable(v) && pid < |v.proposals|
    ensures var votes := VotesOf(v.votes, pid);
      && (forall i, j | 0 <= i < j < |votes| :: votes[i].member != votes[j].member)
      && (votes != [] ==> pid in v.snapshots && v.proposals[pid].snapshot.Some?)
      && (forall i | 0 <= i < |votes| ::
            votes[i].member in v.snapshots[pid] && votes[i].weight == v.snapshots[pid][votes[i].member] >= 0)
      && (v.proposals[pid].snapshot.Some? ==>
            0 <= TotalWeight(votes) <= v.proposals[pid].snapshot.value.governanceSupply)
  {
    hide Reachable, VersionsOk, PolicyOk, RequestsOk, AdvancesOk, SingleUseOk;
    ReachableParts(v);
    var p := v.proposals[pid];
    var votes := VotesOf(v.votes, pid);
    assert ProposalOk(p, pid in v.snapshots, SnapshotOf(v.snapshots, pid), votes);
    if p.snapshot.Some? {
      var weights := SnapshotOf(v.snapshots, pid);
      BallotsWithinSnapshot(votes, weights, p.options);
      SumMapNonNegative(weights - Voters(votes));
      TotalNonNegative(votes);
    }
  }

  lemma {:induction false} TotalNonNegative(votes: seq<Vote>)
    requires forall i | 0 <= i < |votes| :: votes[i].weight >= 0
    ensures TotalWeight(votes) >= 0
  {
    if votes != [] {
      TotalNonNegative(votes[..|votes| - 1]);
    }
  }

  /** Whatever is called afterwards (mints, reversals, rollovers, votes), an
      activation snapshot keeps every row. */
  lemma SnapshotSurvives(v: Tables, calls: seq<Call>, pid: nat)
    requires Reachable(v) && pid in v.snapshots
    ensures pid in Run(v, calls).snapshots && Run(v, calls).snapshots[pid] == v.snapshots[pid]
  {
    hide Reachable, Inv;
    ReachableInv(v);
    RunKeepsInv(v, calls);
    hide MintsExtend, EpochsExtend, ProposalsExtend, RequestsExtend, VotesExtend, BallotsFinal;
  }

  /** A recorded result is final and stays the count and sum of all ballots. */
  lemma RecordedForever(v: Tables, calls: seq<Call>, pid: nat)
    requires Reachable(v) && pid < |v.proposals| && v.proposals[pid].status == Recorded
    ensures var v' := Run(v, calls);
      && pid < |v'.proposals| && v'.proposals[pid] == v.proposals[pid]
      && v'.proposals[pid].result.Some?
      && v'.proposals[pid].result.value.voterCount == |VotesOf(v'.votes, pid)|
      && v'.proposals[pid].result.value.totalWeight == TotalWeight(VotesOf(v'.votes, pid))
      && v'.proposals[pid].result.value.winner == ResolveOutcome(VotesOf(v'.votes, pid), v'.proposals[pid].options)
  {
    hide Reachable, Inv, MintsExtend, EpochsExtend, SnapshotsExtend, RequestsExtend, VotesExtend, BallotsFinal;
    hide SnapshotOk, BallotsOk, ResolveOutcome;
    ReachableInv(v);
    RunKeepsInv(v, calls);
    var v' := Run(v, calls);
    assert ProposalKept(v.proposals[pid], v'.proposals[pid]);
    BoardOfInv(v');
    assert ProposalOk(v'.proposals[pid], pid in v'.snapshots, SnapshotOf(v'.snapshots, pid), VotesOf(v'.votes, pid));
  }

  // ---- Tally ----

  lemma {:induction false} WeightOfRemove(votes: seq<Vote>, i: nat, option: string)
    requires i < |votes|
    ensures WeightOf(votes, option)
      == WeightOf(votes[..i] + votes[i + 1..], option) + if votes[i].option == option then votes[i].weight else 0
  {
    hide WeightOf;
    var k := |votes| - 1;
    var init := votes[..k];
    assert votes == init + [votes[k]];
    WeightOfAppend(init, votes[k], option);
    if i < k {
      WeightOfRemove(init, i, option);
      assert votes[..i] + votes[i + 1..] == (init[..i] + init[i + 1..]) + [votes[k]];
      WeightOfAppend(init[..i] + init[i + 1..], votes[k], option);
    } else {
      assert votes[..i] + votes[i + 1..] == init;
    }
  }

  lemma WeightOfAppend(votes: seq<Vote>, row: Vote, option: string)
    ensures WeightOf(votes + [row], option) == WeightOf(votes, option) + if row.option == option then row.weight else 0
  {
    assert (votes + [row])[..|votes|] == votes;
  }

  /** The ballots cast for one option. */
  function BallotsFor(votes: seq<Vote>, option: string): seq<Vote> {
    if votes == [] then []
    else
      var last := votes[|votes| - 1];
      BallotsFor(votes[..|votes| - 1], option) + if last.option == option then [last] else []
  }

  /** An option's weight is what its ballots weigh together. */
  lemma {:induction false} WeightIsItsBallots(votes: seq<Vote>, option: string)
    ensures WeightOf(votes, option) == TotalWeight(BallotsFor(votes, option))
    ensures forall row: Vote :: row in BallotsFor(votes, option) <==> row in votes && row.option == option
  {
    if votes != [] {
      var init, last := votes[..|votes| - 1], votes[|votes| - 1];
      WeightIsItsBallots(init, option);
      var kept := BallotsFor(init, option);
      TotalAppend(kept, last);
      forall row: Vote
        ensures row in BallotsFor(votes, option) <==> row in votes && row.option == option
      {
        InAppended(votes, row);
        if last.option == option {
          InAppended(kept + [last], row);
          assert (kept + [last])[..|kept|] == kept;
        } else {
          assert BallotsFor(votes, option) == kept;
        }
      }
      hide TotalWeight;
    }
  }

  lemma InAppended(votes: seq<Vote>, row: Vote)
    requires votes != []
    ensures row in votes <==> row in votes[..|votes| - 1] || row == votes[|votes| - 1]
  {
    assert votes == votes[..|votes| - 1] + [votes[|votes| - 1]];
  }

  lemma TotalAppend(votes: seq<Vote>, row: Vote)
    ensures TotalWeight(votes + [row]) == TotalWeight(votes) + row.weight
  {
    assert (votes + [row])[..|votes|] == votes;
  }

  /** An option's weight does not depend on the order of the ballots. */
  lemma {:induction false} WeightOrderIrrelevant(a: seq<Vote>, b: seq<Vote>, option: string)
    requires multiset(a) == multiset(b)
    ensures WeightOf(a, option) == WeightOf(b, option)
  {
    if a == [] {
      assert |multiset(b)| == 0;
    } else {
      var k := |a| - 1;
      assert a == a[..k] + [a[k]];
      var i := PositionIn(b, a[k]);
      RemoveOne(b, i);
      WeightOrderIrrelevant(a[..k], b[..i] + b[i + 1..], option);
      WeightOfRemove(b, i, option);
    }
  }

  lemma PositionIn(votes: seq<Vote>, row: Vote) returns (i: nat)
    requires row in multiset(votes)
    ensures i < |votes| && votes[i] == row
  {
    i :| 0 <= i < |votes| && votes[i] == row;
  }

  lemma RemoveOne(votes: seq<Vote>, i: nat)
    requires i < |votes|
    ensures multiset(votes[..i] + votes[i + 1..]) == multiset(votes) - multiset{votes[i]}
  {
    assert votes == votes[..i] + [votes[i]] + votes[i + 1..];
  }

  lemma VotedInMultiset(votes: seq<Vote>, option: string)
    ensures Voted(votes, option) <==> exists row: Vote :: row in multiset(votes) && row.option == option
  {
    if Voted(votes, option) {
      var i :| 0 <= i < |votes| && votes[i].option == option;
      assert votes[i] in multiset(votes);
    }
  }

  /** The elected option is the same for every order of the same ballots. */
  lemma TallyOrderIrrelevant(a: seq<Vote>, b: seq<Vote>)
    requires multiset(a) == multiset(b)
    ensures Winner(a) == Winner(b)
  {
    forall option: string
      ensures Elected(a, option) <==> Elected(b, option)
    {
      forall other: string
        ensures WeightOf(a, other) == WeightOf(b, other) && (Voted(a, other) <==> Voted(b, other))
      {
        WeightOrderIrrelevant(a, b, other);
        VotedInMultiset(a, other);
        VotedInMultiset(b, other);
      }
    }
    if Winner(a).Some? { WinnerIff(b, Winner(a).value); }
    if Winner(b).Some? { WinnerIff(a, Winner(b).value); }
  }

  lemma {:induction false} WeightNonNegative(votes: seq<Vote>, option: string)
    requires forall i | 0 <= i < |votes| :: votes[i].weight >= 0
    ensures WeightOf(votes, option) >= 0
  {
    if votes != [] {
      WeightNonNegative(votes[..|votes| - 1], option);
    }
  }

  // ---- Settlement ----

  /** What end() does with the side effects of a due proposal. */
  ghost predicate SettlementFires(v: Tables, pid: nat) {
    && pid < |v.proposals|
    && |VotesOf(v.votes, pid)| >= v.proposals[pid].minimumVoters
    && ResolveOutcome(VotesOf(v.votes, pid), v.proposals[pid].options) == APPROVE
  }

  /** With "reject" on the ballot paper, settlement needs quorum and a strict
      plurality for "approve", and these suffice. */
  lemma SettlesIff(v: Tables, pid: nat)
    requires Reachable(v) && pid < |v.proposals| && REJECT in v.proposals[pid].options
    ensures SettlementFires(v, pid) <==>
      |VotesOf(v.votes, pid)| >= v.proposals[pid].minimumVoters && Wins(VotesOf(v.votes, pid), APPROVE)
  {
    hide Reachable;
    var votes := VotesOf(v.votes, pid);
    WeightsFrozen(v, pid);
    WeightNonNegative(votes, APPROVE);
    WinnerIff(votes, APPROVE);
  }

  /** For any ballot paper: "approve" is elected, or nothing is and the
      fallback is "approve", which takes "reject" off the paper and "approve"
      as its last option. */
  lemma SettlesIffAnyPaper(v: Tables, pid: nat)
    requires Reachable(v) && pid < |v.proposals|
    ensures SettlementFires(v, pid) <==>
      && |VotesOf(v.votes, pid)| >= v.proposals[pid].minimumVoters
      && (|| Wins(VotesOf(v.votes, pid), APPROVE)
          || (&& (forall option: string :: !Wins(VotesOf(v.votes, pid), option))
              && REJECT !in v.proposals[pid].options
              && v.proposals[pid].options != []
              && v.proposals[pid].options[|v.proposals[pid].options| - 1] == APPROVE))
  {
    hide Reachable;
    var votes := VotesOf(v.votes, pid);
    WeightsFrozen(v, pid);
    forall option: string
      ensures Elected(votes, option) <==> Wins(votes, option)
    {
      WeightNonNegative(votes, option);
    }
    WinnerIff(votes, APPROVE);
  }

  // ---- Ending ----

  /** A proposal leaves its draft only while an epoch is active, so that from
      then on there always is one. */
  lemma {:induction false} EpochBehindBallots(v: Tables, calls: seq<Call>, pid: nat)
    requires Inv(v) && v.proposals == []
    requires pid < |Run(v, calls).proposals| && Run(v, calls).proposals[pid].status != Draft
    ensures Run(v, calls).ledger.epochs != []
  {
    hide Inv, Extends, Apply;
    if calls != [] {
      var before, call := Run(v, calls[..|calls| - 1]), calls[|calls| - 1];
      RunKeepsInv(v, calls[..|calls| - 1]);
      CallKeepsInv(before, call);
      CallBoardStep(before, call);
      EpochsGrow(before, Run(v, calls));
      if before.ledger.epochs == [] {
        EpochBehindBallots(v, calls[..|calls| - 1], pid);
      }
    }
  }

  lemma EpochsGrow(v: Tables, v': Tables)
    requires Extends(v, v')
    ensures |v.ledger.epochs| <= |v'.ledger.epochs|
  {
  }

  lemma ReachableEpochBehind(v: Tables, pid: nat)
    requires Reachable(v) && pid < |v.proposals| && v.proposals[pid].status != Draft
    ensures v.ledger.epochs != []
  {
    hide Inv;
    var rates, rules, calls :| RatesOk(rates) && v == Run(Initial(rates, rules), calls);
    InitialInv(rates, rules);
    EpochBehindBallots(Initial(rates, rules), calls, pid);
  }

  /** A due proposal is recorded unless it is a passed policy change that
      cannot be armed: another version is pending, or the rates are out of
      range. Then the whole call rolls back. */
  lemma EndRecordsIff(v: Tables, pid: nat, now: int)
    requires Reachable(v) && pid < |v.proposals| && Due(v.proposals[pid], now)
    ensures End(v, pid, now).Success? <==>
      !(&& SettlementFires(v, pid)
        && v.proposals[pid].kind.TokenPolicyChange?
        && (v.policy.pendingVersionId.Some? || !PolicyRules.ValidRates(v.proposals[pid].kind.rates)))
    ensures End(v, pid, now).Success? ==>
      var v' := End(v, pid, now).value.0;
      pid < |v'.proposals| && v'.proposals[pid].status == Recorded
  {
    hide Reachable, Inv, ResolveOutcome, TotalWeight, ActiveEpoch, VersionOk;
    ReachableInv(v);
    ReachableEpochBehind(v, pid);
    LastEpoch(v);
    NextVersionFree(v);
  }

  /** No version is numbered past the newest one. */
  lemma NextVersionFree(v: Tables)
    requires Reachable(v)
    ensures v.policy.pendingVersionId.None? ==> !PolicyRules.VersionExists(v.versions, v.policy.version + 1)
  {
    hide Reachable, BoardOk, RequestsOk, AdvancesOk, SingleUseOk;
    ReachableParts(v);
    forall i: nat | i < |v.versions|
      ensures v.versions[i].version == i + 1
    {
      assert VersionOk(v.versions[i], i, v.proposals);
    }
  }

  /** A proposal whose end failed because another version was pending can end
      once the active epoch has rolled over, if its rates are in range. */
  lemma ConflictClearsAtRollover(v: Tables, pid: nat, now: int)
    requires Reachable(v) && End(v, pid, now) == Failure(Conflict)
    ensures v.ledger.epochs != [] && pid < |v.proposals| && v.proposals[pid].kind.TokenPolicyChange?
    ensures var v' := Apply(v, CloseCall(|v.ledger.epochs| - 1));
      End(v', pid, now).Success? <==> PolicyRules.ValidRates(v.proposals[pid].kind.rates)
  {
    hide Reachable, Inv, End, Run;
    ConflictMeansPending(v, pid, now);
    var call := CloseCall(|v.ledger.epochs| - 1);
    var v' := Apply(v, call);
    ReachableInv(v);
    RolloverSucceeds(v);
    CloseKeepsBoard(v, |v.ledger.epochs| - 1);
    assert v' == Run(v, [call]) by { RunOne(v, call); }
    ReachableOnward(v, [call]);
    EndRecordsIff(v', pid, now);
  }

  lemma CloseKeepsBoard(v: Tables, id: nat)
    requires CloseEpoch(v, id).Success?
    ensures CloseEpoch(v, id).value.0.proposals == v.proposals && CloseEpoch(v, id).value.0.votes == v.votes
  {
  }

  lemma ConflictMeansPending(v: Tables, pid: nat, now: int)
    requires Reachable(v) && End(v, pid, now) == Failure(Conflict)
    ensures pid < |v.proposals| && Due(v.proposals[pid], now) && SettlementFires(v, pid)
    ensures v.proposals[pid].kind.TokenPolicyChange?
    ensures v.policy.pendingVersionId.Some? && v.ledger.epochs != []
  {
    hide Reachable, ResolveOutcome, TotalWeight, BoardOk, RequestsOk, AdvancesOk, SingleUseOk, VersionsOk;
    ReachableParts(v);
    NextVersionFree(v);
  }
}
