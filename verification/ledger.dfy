/** The four ways the shared ledger changes: one mint leg is posted, one mint
    is reversed, the first epoch opens, the active epoch rolls over. */
module LedgerSteps {
  import opened Wrappers
  import opened Types

  function Row(balances: map<Member, Balance>, m: Member): Balance {
    if m in balances then balances[m] else ZERO_BALANCE
  }

  /** The id of the active epoch, None when there is none. */
  function ActiveEpoch(epochs: seq<Epoch>): (id: Option<nat>)
    ensures id.Some? ==> id.value < |epochs| && epochs[id.value].status == Active
    ensures id.None? ==> forall i | 0 <= i < |epochs| :: epochs[i].status != Active
  {
    if epochs == [] then None
    else if epochs[|epochs| - 1].status == Active then Some(|epochs| - 1)
    else ActiveEpoch(epochs[..|epochs| - 1])
  }

  // ---- Posting a mint leg ----

  function InitialStatus(source: BudgetSource): GovStatus {
    if source == CurrentEpoch then Effective else Pending
  }

  function ActivationEpoch(leg: Leg): Option<int> {
    if leg.source == CurrentEpoch then None else Some(leg.epochNumber + 1)
  }

  /** The mint event a leg becomes when it is the next one on ledger l. */
  function Stamp(l: Ledger, leg: Leg): MintEvent {
    var b := Row(l.balances, leg.member);
    MintEvent(
      leg, InitialStatus(leg.source), ActivationEpoch(leg), l.ledgerSeq + 1,
      b.total, b.total + leg.amount, l.supply, l.supply + leg.amount,
      b.active, if leg.source == CurrentEpoch then b.active + leg.amount else b.active)
  }

  /** Only contribution legs from the current budget count against the member
      cap; an executed special reward is not counted as earned at all. */
  function Credit(b: Balance, leg: Leg): Balance {
    var current := leg.source == CurrentEpoch;
    b.(total := b.total + leg.amount,
       active := if current then b.active + leg.amount else b.active,
       pending := if current then b.pending else b.pending + leg.amount,
       earnedEpoch := if current && leg.mintType == Contribution then b.earnedEpoch + leg.amount else b.earnedEpoch,
       earnedLifetime := if leg.mintType == SpecialReward then b.earnedLifetime else b.earnedLifetime + leg.amount)
  }

  function Meter(epochs: seq<Epoch>, leg: Leg): seq<Epoch> {
    if leg.epochId.Some? && leg.epochId.value < |epochs| then
      var e := epochs[leg.epochId.value];
      epochs[leg.epochId.value :=
        if leg.source == CurrentEpoch then e.(regularMinted := e.regularMinted + leg.amount)
        else e.(advancedMinted := e.advancedMinted + leg.amount)]
    else epochs
  }

  function PostMint(l: Ledger, leg: Leg): Ledger {
    Ledger(
      l.supply + leg.amount,
      l.ledgerSeq + 1,
      Meter(l.epochs, leg),
      l.balances[leg.member := Credit(Row(l.balances, leg.member), leg)],
      l.mints + [Stamp(l, leg)],
      l.reversals)
  }

  function PostMints(l: Ledger, legs: seq<Leg>): Ledger {
    if legs == [] then l
    else PostMint(PostMints(l, legs[..|legs| - 1]), legs[|legs| - 1])
  }

  lemma PostAppends(l: Ledger, leg: Leg)
    ensures PostMint(l, leg).ledgerSeq == l.ledgerSeq + 1
    ensures PostMint(l, leg).mints == l.mints + [Stamp(l, leg)]
  {
  }

  /** What posting adds to the event table, leg by leg. */
  lemma {:induction false} PostedEvents(l: Ledger, legs: seq<Leg>)
    ensures PostMints(l, legs).ledgerSeq == l.ledgerSeq + |legs|
    ensures |PostMints(l, legs).mints| == |l.mints| + |legs|
    ensures PostMints(l, legs).mints[..|l.mints|] == l.mints
    ensures forall i | 0 <= i < |legs| ::
      PostMints(l, legs).mints[|l.mints| + i] == Stamp(PostMints(l, legs[..i]), legs[i])
  {
    hide PostMint, Stamp;
    if legs != [] {
      var front := legs[..|legs| - 1];
      PostedEvents(l, front);
      PostAppends(PostMints(l, front), legs[|legs| - 1]);
      forall i | 0 <= i < |legs|
        ensures PostMints(l, legs).mints[|l.mints| + i] == Stamp(PostMints(l, legs[..i]), legs[i])
      {
        if i < |front| {
          assert front[..i] == legs[..i];
        }
      }
    }
  }

  // ---- Posting a reversal ----

  function Debit(b: Balance, status: GovStatus, amount: int): Balance {
    b.(total := b.total - amount,
       active := if status == Effective then b.active - amount else b.active,
       pending := if status == Effective then b.pending else b.pending - amount,
       reversedLifetime := b.reversedLifetime + amount)
  }

  function PostReversal(l: Ledger, mintId: nat, amount: int, reason: string, approvedBy: string,
                        proposalId: Option<nat>): Ledger
    requires mintId < |l.mints|
  {
    var mint := l.mints[mintId];
    var after := Debit(Row(l.balances, mint.leg.member), mint.status, amount);
    AddReversal(l, after,
      ReversalEvent(mint.leg.member, mintId, amount, reason, after.total, after.active, after.pending,
                    l.supply - amount, approvedBy, proposalId, l.ledgerSeq + 1))
  }

  function AddReversal(l: Ledger, after: Balance, r: ReversalEvent): Ledger {
    Ledger(l.supply - r.amount, l.ledgerSeq + 1, l.epochs, l.balances[r.member := after], l.mints, l.reversals + [r])
  }

  // ---- Opening and rolling epochs ----

  datatype Budget = Budget(base: int, effective: int, maxAdvance: int)

  function NewEpoch(number: int, supply: int, inflationBps: int, debt: int, budget: Budget): Epoch {
    Epoch(number, Active, supply, inflationBps, budget.base, debt, budget.effective, budget.maxAdvance, 0, 0, 0)
  }

  /** The balance layer of the rollover: a row with pending power turns it
      active; the per-epoch meter of every row restarts. */
  function RollBalance(b: Balance): Balance {
    if b.pending > 0 then b.(active := b.active + b.pending, pending := 0, earnedEpoch := 0)
    else b.(earnedEpoch := 0)
  }

  /** The event layer of the rollover: a pending event whose activation epoch
      is the one now opening becomes active. */
  function RollMint(e: MintEvent, opening: int): MintEvent {
    if e.status == Pending && e.activationEpoch == Some(opening) then e.(status := Effective) else e
  }

  function RollMints(mints: seq<MintEvent>, opening: int): (r: seq<MintEvent>)
    ensures |r| == |mints|
    ensures forall i | 0 <= i < |r| :: r[i] == RollMint(mints[i], opening)
  {
    seq(|mints|, i requires 0 <= i < |mints| => RollMint(mints[i], opening))
  }

  function RollBalances(balances: map<Member, Balance>): (r: map<Member, Balance>)
    ensures r.Keys == balances.Keys
    ensures forall m | m in r :: r[m] == RollBalance(balances[m])
  {
    map m | m in balances :: RollBalance(balances[m])
  }

  function CloseRow(e: Epoch): Epoch {
    e.(status := Closed, unusedBudget := e.effectiveBudget - e.regularMinted)
  }

  function Roll(l: Ledger, id: nat, inflationBps: int, debt: int, budget: Budget): Ledger
    requires id < |l.epochs|
  {
    var opening := l.epochs[id].number + 1;
    l.(epochs := l.epochs[id := CloseRow(l.epochs[id])] + [NewEpoch(opening, l.supply, inflationBps, debt, budget)],
       balances := RollBalances(l.balances),
       mints := RollMints(l.mints, opening))
  }
}

/** The ledger as a journal: mint and reversal events in ledgerSeq order, and
    what folding them from an empty ledger gives. */
module Journals {
  import opened Types

  /** What one event says it did to one balance and to the supply. */
  datatype Posting = Posting(
    seqNo: int,
    member: Member,
    delta: int,
    balanceBefore: int,
    balanceAfter: int,
    supplyBefore: int,
    supplyAfter: int)

  function MintPosting(e: MintEvent): Posting {
    Posting(e.ledgerSeq, e.leg.member, e.leg.amount, e.balanceBefore, e.balanceAfter, e.supplyBefore, e.supplyAfter)
  }

  /** A reversal row stores only the values after it. */
  function ReversalPosting(r: ReversalEvent): Posting {
    Posting(r.ledgerSeq, r.member, -r.amount, r.totalAfter + r.amount, r.totalAfter,
            r.supplyAfter + r.amount, r.supplyAfter)
  }

  function MintPostings(mints: seq<MintEvent>): (r: seq<Posting>)
    ensures |r| == |mints| && forall i | 0 <= i < |r| :: r[i] == MintPosting(mints[i])
  {
    seq(|mints|, i requires 0 <= i < |mints| => MintPosting(mints[i]))
  }

  function ReversalPostings(reversals: seq<ReversalEvent>): (r: seq<Posting>)
    ensures |r| == |reversals| && forall i | 0 <= i < |r| :: r[i] == ReversalPosting(reversals[i])
  {
    seq(|reversals|, i requires 0 <= i < |reversals| => ReversalPosting(reversals[i]))
  }

  /** Two event tables merged by their sequence numbers. */
  function Merge(a: seq<Posting>, b: seq<Posting>): seq<Posting>
    decreases |a| + |b|
  {
    if a == [] then b
    else if b == [] then a
    else if a[|a| - 1].seqNo > b[|b| - 1].seqNo then Merge(a[..|a| - 1], b) + [a[|a| - 1]]
    else Merge(a, b[..|b| - 1]) + [b[|b| - 1]]
  }

  function Journal(mints: seq<MintEvent>, reversals: seq<ReversalEvent>): seq<Posting> {
    Merge(MintPostings(mints), ReversalPostings(reversals))
  }

  /** The merge neither drops nor invents an event. */
  lemma {:induction false} MergeKeepsAll(a: seq<Posting>, b: seq<Posting>)
    ensures multiset(Merge(a, b)) == multiset(a) + multiset(b)
    ensures |Merge(a, b)| == |a| + |b|
    decreases |a| + |b|
  {
    if a == [] || b == [] {
    } else if a[|a| - 1].seqNo > b[|b| - 1].seqNo {
      MergeKeepsAll(a[..|a| - 1], b);
      assert a == a[..|a| - 1] + [a[|a| - 1]];
    } else {
      MergeKeepsAll(a, b[..|b| - 1]);
      assert b == b[..|b| - 1] + [b[|b| - 1]];
    }
  }

  // ---- Folding ----

  function SupplyOf(j: seq<Posting>): int {
    if j == [] then 0 else SupplyOf(j[..|j| - 1]) + j[|j| - 1].delta
  }

  function TotalOf(j: seq<Posting>, m: Member): int {
    if j == [] then 0
    else TotalOf(j[..|j| - 1], m) + if j[|j| - 1].member == m then j[|j| - 1].delta else 0
  }

  /** p is what the next event after j must look like. */
  predicate Continues(j: seq<Posting>, p: Posting) {
    && p.seqNo == |j| + 1
    && p.supplyBefore == SupplyOf(j)
    && p.supplyAfter == SupplyOf(j) + p.delta
    && p.balanceBefore == TotalOf(j, p.member)
    && p.balanceAfter == TotalOf(j, p.member) + p.delta
  }

  /** Every event continues the events before it: the sequence numbers run
      1, 2, 3, ... and every stamped balance and supply is the folded one. */
  predicate Replays(j: seq<Posting>) {
    forall k | 0 <= k < |j| :: Continues(j[..k], j[k])
  }

  lemma ReplaysAppend(j: seq<Posting>, p: Posting)
    requires Replays(j) && Continues(j, p)
    ensures Replays(j + [p])
    ensures SupplyOf(j + [p]) == SupplyOf(j) + p.delta
    ensures forall m: Member :: TotalOf(j + [p], m) == TotalOf(j, m) + if p.member == m then p.delta else 0
  {
    assert (j + [p])[..|j|] == j;
    forall k | 0 <= k < |j + [p]|
      ensures Continues((j + [p])[..k], (j + [p])[k])
    {
      if k < |j| {
        assert (j + [p])[..k] == j[..k];
      }
    }
  }

  /** A new mint event goes to the end of the journal when its number is the
      largest yet, and so does a new reversal. */
  lemma JournalAppendMint(mints: seq<MintEvent>, reversals: seq<ReversalEvent>, e: MintEvent)
    requires forall k | 0 <= k < |reversals| :: reversals[k].ledgerSeq < e.ledgerSeq
    ensures Journal(mints + [e], reversals) == Journal(mints, reversals) + [MintPosting(e)]
  {
    var a, b := MintPostings(mints), ReversalPostings(reversals);
    assert MintPostings(mints + [e]) == a + [MintPosting(e)];
    assert (a + [MintPosting(e)])[..|a|] == a;
    if a == [] && b != [] {
      assert Merge(a + [MintPosting(e)], b) == Merge(a, b) + [MintPosting(e)];
    }
  }

  lemma JournalAppendReversal(mints: seq<MintEvent>, reversals: seq<ReversalEvent>, r: ReversalEvent)
    requires forall k | 0 <= k < |mints| :: mints[k].ledgerSeq < r.ledgerSeq
    ensures Journal(mints, reversals + [r]) == Journal(mints, reversals) + [ReversalPosting(r)]
  {
    var a, b := MintPostings(mints), ReversalPostings(reversals);
    assert ReversalPostings(reversals + [r]) == b + [ReversalPosting(r)];
    assert (b + [ReversalPosting(r)])[..|b|] == b;
  }

  /** Governance columns are not part of the journal. */
  lemma JournalIgnoresGovernance(mints: seq<MintEvent>, mints': seq<MintEvent>, reversals: seq<ReversalEvent>)
    requires |mints| == |mints'|
    requires forall i | 0 <= i < |mints| :: MintPosting(mints[i]) == MintPosting(mints'[i])
    ensures Journal(mints, reversals) == Journal(mints', reversals)
  {
    assert MintPostings(mints) == MintPostings(mints');
  }
}
