/** The shared tables as one mutable object, with the guarded updates every
    service goes through. */
module Databases {
  import opened Wrappers
  import opened Types
  import opened LedgerSteps
  import opened AdvanceRules
  import opened ProposalRules
  import opened Invariant

  /** A transaction agrees with its specification: it returns what the
      specification returns and leaves the tables as the specification says; a
      thrown error leaves them as they were. */
  ghost predicate Commits<T(!new)>(before: Tables, after: Tables, spec: Result<(Tables, T)>, r: Result<T>) {
    match spec
    case Success(pair) => r == Success(pair.1) && after == pair.0
    case Failure(e) => r == Failure(e) && after == before
  }

  /** The same before the rollback: on an error the tables may be half written. */
  ghost predicate Agrees<T(!new)>(after: Tables, spec: Result<(Tables, T)>, r: Result<T>) {
    match spec
    case Success(pair) => r == Success(pair.1) && after == pair.0
    case Failure(e) => r == Failure(e)
  }

  function Regular(e: Epoch, amount: int): Epoch {
    e.(regularMinted := e.regularMinted + amount)
  }

  function Advanced(e: Epoch, amount: int): Epoch {
    e.(advancedMinted := e.advancedMinted + amount)
  }

  class Database {
    var policy: Policy
    var versions: seq<PolicyVersion>
    var supply: int
    var ledgerSeq: int
    var epochs: seq<Epoch>
    var balances: map<Member, Balance>
    var mints: seq<MintEvent>
    var reversals: seq<ReversalEvent>
    var requests: seq<AdvanceRequest>
    var proposals: seq<Proposal>
    var snapshots: map<nat, map<Member, int>>
    var votes: map<nat, seq<Vote>>

    function Books(): Ledger
      reads this
    {
      Ledger(supply, ledgerSeq, epochs, balances, mints, reversals)
    }

    function Value(): Tables
      reads this
    {
      Tables(policy, versions, Books(), requests, proposals, snapshots, votes)
    }

    /** The rows a community is seeded with. */
    constructor (rates: Rates, rules: seq<Rule>)
      ensures Value() == Initial(rates, rules)
    {
      policy, versions := Policy(1, rates, rules, None, None), [PolicyVersion(1, 1, rates, rules, None)];
      supply, ledgerSeq, epochs, balances := 0, 0, [], map[];
      mints, reversals, requests, proposals := [], [], [], [];
      snapshots, votes := map[], map[];
    }

    /** What the transaction does with its writes when its body throws. */
    method Rollback(to: Tables)
      modifies this
      ensures Value() == to
    {
      policy, versions, requests, proposals := to.policy, to.versions, to.requests, to.proposals;
      snapshots, votes := to.snapshots, to.votes;
      supply, ledgerSeq, epochs := to.ledger.supply, to.ledger.ledgerSeq, to.ledger.epochs;
      balances, mints, reversals := to.ledger.balances, to.ledger.mints, to.ledger.reversals;
    }

    // ---- Guarded updates: each returns how many rows it changed ----

    method IncrementRegularMintedGuarded(id: nat, amount: int) returns (rows: nat)
      modifies `epochs
      ensures rows == if id < |old(epochs)| && old(epochs)[id].regularMinted + amount <= old(epochs)[id].effectiveBudget
                      then 1 else 0
      ensures epochs == if rows == 1 then old(epochs)[id := Regular(old(epochs)[id], amount)] else old(epochs)
    {
      rows := 0;
      if id < |epochs| && epochs[id].regularMinted + amount <= epochs[id].effectiveBudget {
        epochs := epochs[id := Regular(epochs[id], amount)];
        rows := 1;
      }
    }

    method IncrementAdvancedMintedGuarded(id: nat, amount: int) returns (rows: nat)
      modifies `epochs
      ensures rows == if id < |old(epochs)| && old(epochs)[id].advancedMinted + amount <= old(epochs)[id].maxAdvance
                      then 1 else 0
      ensures epochs == if rows == 1 then old(epochs)[id := Advanced(old(epochs)[id], amount)] else old(epochs)
    {
      rows := 0;
      if id < |epochs| && epochs[id].advancedMinted + amount <= epochs[id].maxAdvance {
        epochs := epochs[id := Advanced(epochs[id], amount)];
        rows := 1;
      }
    }

    method ActivatePendingGovernance() returns (rows: nat)
      modifies `balances
      ensures rows == |set m | m in old(balances) && old(balances)[m].pending > 0|
      ensures balances.Keys == old(balances).Keys
      ensures forall m | m in balances :: balances[m] == TurnActive(old(balances)[m])
    {
      rows := |set m | m in balances && balances[m].pending > 0|;
      balances := map m | m in balances :: TurnActive(balances[m]);
    }

    method TransitionProposalStatus(pid: nat, from: ProposalStatus, to: ProposalStatus) returns (rows: nat)
      modifies `proposals
      ensures rows == if pid < |old(proposals)| && old(proposals)[pid].status == from then 1 else 0
      ensures proposals
           == if rows == 1 then old(proposals)[pid := old(proposals)[pid].(status := to)] else old(proposals)
    {
      rows := 0;
      if pid < |proposals| && proposals[pid].status == from {
        proposals := proposals[pid := proposals[pid].(status := to)];
        rows := 1;
      }
    }

    method EndProposalIfDue(pid: nat, now: int) returns (rows: nat)
      modifies `proposals
      ensures rows == if pid < |old(proposals)| && Due(old(proposals)[pid], now) then 1 else 0
      ensures proposals
           == if rows == 1 then old(proposals)[pid := old(proposals)[pid].(status := Ended)] else old(proposals)
    {
      rows := 0;
      if pid < |proposals| && proposals[pid].status == Open && proposals[pid].endTime.Some?
         && proposals[pid].endTime.value <= now
      {
        proposals := proposals[pid := proposals[pid].(status := Ended)];
        rows := 1;
      }
    }

    // ---- Rows the ledger services share ----

    method AllocateLedgerSeq() returns (n: int)
      modifies `ledgerSeq
      ensures n == ledgerSeq == old(ledgerSeq) + 1
    {
      ledgerSeq := ledgerSeq + 1;
      n := ledgerSeq;
    }

    /** The member's balance row, created with zeros first when there is none. */
    method LockOrCreateBalance(m: Member) returns (b: Balance)
      modifies `balances
      ensures b == Row(old(balances), m)
      ensures balances == if m in old(balances) then old(balances) else old(balances)[m := ZERO_BALANCE]
    {
      if m !in balances {
        balances := balances[m := ZERO_BALANCE];
      }
      b := balances[m];
    }

    /** The row returned here is the id the insert gave the event. */
    method InsertMint(e: MintEvent) returns (id: nat)
      modifies `mints
      ensures id == |old(mints)| && mints == old(mints) + [e]
    {
      id := |mints|;
      mints := mints + [e];
    }

    method MarkRequestExecuted(rid: nat, amount: int)
      requires rid < |requests|
      modifies `requests
      ensures requests == MarkExecuted(old(requests), rid, amount)
    {
      requests := requests[rid := requests[rid].(status := Executed, approvedAmount := Some(amount))];
    }
  }

  /** The balance layer alone: the whole pending power becomes active. */
  function TurnActive(b: Balance): Balance {
    if b.pending > 0 then b.(active := b.active + b.pending, pending := 0) else b
  }

  /** Creating a zero row first changes nothing a posting sees. */
  lemma {:induction false} ZeroRowIsHarmless(l: Ledger, m: Member, legs: seq<Leg>)
    requires m !in l.balances && legs != [] && legs[0].member == m
    ensures PostMints(l.(balances := l.balances[m := ZERO_BALANCE]), legs) == PostMints(l, legs)
  {
    var l1 := l.(balances := l.balances[m := ZERO_BALANCE]);
    if |legs| == 1 {
      var leg := legs[0];
      assert legs[..|legs| - 1] == [];
      assert l1.balances[m := Credit(ZERO_BALANCE, leg)] == l.balances[m := Credit(ZERO_BALANCE, leg)];
      assert PostMint(l1, leg) == PostMint(l, leg);
    } else {
      ZeroRowIsHarmless(l, m, legs[..|legs| - 1]);
    }
  }
}
