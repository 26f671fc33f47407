/** What a genesis distribution returns and leaves, and that it happens once. */
module GenesisOutcomes {
  import opened Wrappers
  import opened Types
  import opened LedgerSteps
  import opened LedgerInvariant
  import opened MintRules
  import opened Invariant
  import opened History
  import opened Runs
  import opened CallShapes
  import opened CapTheorems
  import opened GovernanceTheorems

  ghost predicate HasGenesis(v: Tables) {
    exists i | 0 <= i < |v.ledger.mints| :: v.ledger.mints[i].leg.mintType == InitialAllocation
  }

  ghost predicate AllPositive(allocations: seq<Allocation>) {
    forall i | 0 <= i < |allocations| :: allocations[i].amount > 0
  }

  /** What the list gives one member. */
  function AllocatedTo(allocations: seq<Allocation>, m: Member): int {
    if allocations == [] then 0
    else
      var last := allocations[|allocations| - 1];
      AllocatedTo(allocations[..|allocations| - 1], m) + if last.member == m then last.amount else 0
  }

  ghost predicate InList(allocations: seq<Allocation>, m: Member) {
    exists i | 0 <= i < |allocations| :: allocations[i].member == m
  }

  function RowBefore(l: Ledger, m: Member): Balance {
    if m in l.balances then l.balances[m] else Balance(0, 0, 0, 0, 0, 0)
  }

  /** The event of allocation i, stamped after those before it in the list. */
  function GenesisEvent(l: Ledger, allocations: seq<Allocation>, i: nat, version: int, approvedBy: string): MintEvent
    requires i < |allocations|
  {
    var a, before := allocations[i], allocations[..i];
    var b, earlier := RowBefore(l, a.member), AllocatedTo(before, a.member);
    var supply := l.supply + AmountsOf(before);
    MintEvent(
      Leg(a.member, None, 0, InitialAllocation, CurrentEpoch, a.amount, version, approvedBy, None, false,
          None, None, None),
      Effective, None, l.ledgerSeq + i + 1, b.total + earlier, b.total + earlier + a.amount,
      supply, supply + a.amount, b.active + earlier, b.active + earlier + a.amount)
  }

  function CreditedBy(b: Balance, amount: int): Balance {
    Balance(b.total + amount, b.active + amount, b.pending, b.earnedEpoch, b.earnedLifetime + amount,
            b.reversedLifetime)
  }

  /** The allocations made in order, each active at once; nothing else changes. */
  ghost predicate Distributes(l: Ledger, l': Ledger, allocations: seq<Allocation>, version: int, approvedBy: string) {
    && l'.supply == l.supply + AmountsOf(allocations)
    && l'.ledgerSeq == l.ledgerSeq + |allocations|
    && l'.epochs == l.epochs && l'.reversals == l.reversals
    && |l'.mints| == |l.mints| + |allocations| && l'.mints[..|l.mints|] == l.mints
    && (forall i: nat | i < |allocations| :: EventAt(l, l', allocations, i, version, approvedBy))
    && RowsCredited(l, l', allocations)
  }

  ghost predicate EventAt(l: Ledger, l': Ledger, allocations: seq<Allocation>, i: nat, version: int,
                          approvedBy: string)
  {
    && i < |allocations| && |l.mints| + i < |l'.mints|
    && l'.mints[|l.mints| + i] == GenesisEvent(l, allocations, i, version, approvedBy)
  }

  /** Every listed member has a row, credited with the sum of its allocations. */
  ghost predicate RowsCredited(l: Ledger, l': Ledger, allocations: seq<Allocation>) {
    && (forall m: Member :: m in l'.balances <==> m in l.balances || InList(allocations, m))
    && (forall m | m in l'.balances :: l'.balances[m] == CreditedBy(RowBefore(l, m), AllocatedTo(allocations, m)))
  }

  lemma {:induction false} PostsDistribute(l: Ledger, allocations: seq<Allocation>, version: int, approvedBy: string)
    ensures Distributes(l, PostMints(l, GenesisLegs(allocations, version, approvedBy)), allocations, version,
                        approvedBy)
  {
    var legs := GenesisLegs(allocations, version, approvedBy);
    if allocations == [] {
      assert l.mints[..|l.mints|] == l.mints;
    } else {
      var k := |allocations| - 1;
      var init := allocations[..k];
      PostsDistribute(l, init, version, approvedBy);
      assert legs[..k] == GenesisLegs(init, version, approvedBy);
      OneMoreDistributed(l, PostMints(l, legs[..k]), allocations, version, approvedBy);
    }
  }

  lemma OneMoreDistributed(l: Ledger, l1: Ledger, allocations: seq<Allocation>, version: int, approvedBy: string)
    requires allocations != []
    requires Distributes(l, l1, allocations[..|allocations| - 1], version, approvedBy)
    ensures Distributes(l, PostMint(l1, GenesisLeg(allocations[|allocations| - 1], version, approvedBy)), allocations,
                        version, approvedBy)
  {
    var k := |allocations| - 1;
    var init, a := allocations[..k], allocations[k];
    var leg := GenesisLeg(a, version, approvedBy);
    var l' := PostMint(l1, leg);
    RowSoFar(l, l1, init, a.member);
    NewEvent(l, l1, allocations, version, approvedBy);
    CreditedNext(l, l1, allocations, version, approvedBy);
    hide PostMint, Stamp, RowsCredited, GenesisEvent;
    PostAppends(l1, leg);
    PostGenesis(l1, leg);
    assert l'.mints[..|l.mints|] == l1.mints[..|l.mints|];
    forall i: nat | i < |allocations|
      ensures EventAt(l, l', allocations, i, version, approvedBy)
    {
      if i < k {
        assert EventAt(l, l1, init, i, version, approvedBy);
        SameEvent(l, allocations, i, version, approvedBy);
      }
    }
  }

  lemma SameEvent(l: Ledger, allocations: seq<Allocation>, i: nat, version: int, approvedBy: string)
    requires i < |allocations| - 1
    ensures GenesisEvent(l, allocations[..|allocations| - 1], i, version, approvedBy)
      == GenesisEvent(l, allocations, i, version, approvedBy)
  {
    assert allocations[..|allocations| - 1][..i] == allocations[..i];
  }

  lemma PostGenesis(l: Ledger, leg: Leg)
    requires leg.epochId.None?
    ensures var l' := PostMint(l, leg);
      && l'.supply == l.supply + leg.amount && l'.epochs == l.epochs && l'.reversals == l.reversals
      && (leg.source == CurrentEpoch && leg.mintType == InitialAllocation ==>
            l'.balances == l.balances[leg.member := CreditedBy(Row(l.balances, leg.member), leg.amount)])
  {
  }

  lemma NewEvent(l: Ledger, l1: Ledger, allocations: seq<Allocation>, version: int, approvedBy: string)
    requires allocations != []
    requires Distributes(l, l1, allocations[..|allocations| - 1], version, approvedBy)
    ensures Stamp(l1, GenesisLeg(allocations[|allocations| - 1], version, approvedBy))
      == GenesisEvent(l, allocations, |allocations| - 1, version, approvedBy)
  {
    RowSoFar(l, l1, allocations[..|allocations| - 1], allocations[|allocations| - 1].member);
    hide RowsCredited, EventAt, InList, AllocatedTo, AmountsOf;
  }

  lemma CreditedNext(l: Ledger, l1: Ledger, allocations: seq<Allocation>, version: int, approvedBy: string)
    requires allocations != [] && RowsCredited(l, l1, allocations[..|allocations| - 1])
    ensures RowsCredited(l, PostMint(l1, GenesisLeg(allocations[|allocations| - 1], version, approvedBy)), allocations)
  {
    var init, a := allocations[..|allocations| - 1], allocations[|allocations| - 1];
    var leg := GenesisLeg(a, version, approvedBy);
    PostGenesis(l1, leg);
    hide PostMint, InList, CreditedBy;
    var rows := PostMint(l1, leg).balances;
    forall m: Member
      ensures m in rows <==> m in l.balances || InList(allocations, m)
    {
      ListedNext(allocations, m);
    }
    hide RowsCredited;
    forall m | m in rows
      ensures rows[m] == CreditedBy(RowBefore(l, m), AllocatedTo(allocations, m))
    {
      RowSoFar(l, l1, init, m);
      CreditedTwice(RowBefore(l, m), AllocatedTo(init, m), a.amount);
    }
  }

  lemma CreditedTwice(b: Balance, first: int, second: int)
    ensures CreditedBy(CreditedBy(b, first), second) == CreditedBy(b, first + second)
  {
  }

  lemma ListedNext(allocations: seq<Allocation>, m: Member)
    requires allocations != []
    ensures InList(allocations, m)
      <==> InList(allocations[..|allocations| - 1], m) || allocations[|allocations| - 1].member == m
  {
    var init := allocations[..|allocations| - 1];
    if i :| 0 <= i < |init| && init[i].member == m {
      assert allocations[i].member == m;
    }
    if i :| 0 <= i < |allocations| && allocations[i].member == m && i < |init| {
      assert init[i].member == m;
    }
  }

  /** The row the next allocation finds. */
  lemma RowSoFar(l: Ledger, l1: Ledger, allocations: seq<Allocation>, m: Member)
    requires RowsCredited(l, l1, allocations)
    ensures Row(l1.balances, m) == CreditedBy(RowBefore(l, m), AllocatedTo(allocations, m))
  {
    if m !in l1.balances {
      NothingFor(allocations, m);
    }
  }

  lemma {:induction false} NothingFor(allocations: seq<Allocation>, m: Member)
    requires !InList(allocations, m)
    ensures AllocatedTo(allocations, m) == 0
  {
    if allocations != [] {
      var init := allocations[..|allocations| - 1];
      assert forall i | 0 <= i < |init| :: init[i] == allocations[i];
      NothingFor(init, m);
    }
  }

  /** Genesis succeeds exactly when there was none and every amount is positive,
      and then leaves the distribution. */
  lemma GenesisOutcome(v: Tables, allocations: seq<Allocation>, approvedBy: string)
    ensures var r := MintInitialAllocation(v, allocations, approvedBy);
      && (r.Success? <==> !HasGenesis(v) && AllPositive(allocations))
      && (r.Failure? ==> r.error == if HasGenesis(v) then AlreadyMinted else ValidationError)
      && (r.Success? ==>
            && var (v', outcome) := r.value;
            && v' == v.(ledger := v'.ledger)
            && Distributes(v.ledger, v'.ledger, allocations, v.policy.version, approvedBy)
            && |outcome.mintIds| == |allocations|
            && (forall i: nat | i < |allocations| :: outcome.mintIds[i] == |v.ledger.mints| + i)
            && outcome.supplyAfter == v'.ledger.supply
            && (allocations != [] ==>
                  && allocations[|allocations| - 1].member in v'.ledger.balances
                  && outcome.balanceAfter == v'.ledger.balances[allocations[|allocations| - 1].member].total))
  {
    hide PostMints;
    PostsDistribute(v.ledger, allocations, v.policy.version, approvedBy);
    assert Seeded(v.ledger.mints) <==> HasGenesis(v);
    if allocations != [] {
      assert InList(allocations, allocations[|allocations| - 1].member);
    }
  }

  // ---- Once ----

  /** After genesis no call adds an allocation. */
  lemma GenesisClosed(v: Tables, call: Call)
    requires Inv(v) && HasGenesis(v)
    ensures var mints, mints' := v.ledger.mints, Apply(v, call).ledger.mints;
      && |mints| <= |mints'|
      && (forall i | 0 <= i < |mints| :: mints'[i].leg == mints[i].leg)
      && (forall i | |mints| <= i < |mints'| :: mints'[i].leg.mintType != InitialAllocation)
  {
    hide Inv, Apply, LegShape, PostMint, PostMints, Stamp;
    assert Seeded(v.ledger.mints);
    CallLedgerStep(v, call);
    var l, l' := v.ledger, Apply(v, call).ledger;
    if legs :| Posted(v, l', legs, call) {
      PostedEvents(l, legs);
      forall i | |l.mints| <= i < |l'.mints|
        ensures l'.mints[i].leg.mintType != InitialAllocation
      {
        var k := i - |l.mints|;
        assert l'.mints[|l.mints| + k] == Stamp(PostMints(l, legs[..k]), legs[k]);
        StampedLeg(PostMints(l, legs[..k]), legs[k]);
      }
    }
  }

  lemma {:induction false} GenesisClosedAlong(v: Tables, calls: seq<Call>)
    requires Inv(v) && HasGenesis(v)
    ensures Inv(Run(v, calls)) && HasGenesis(Run(v, calls))
    ensures var mints, mints' := v.ledger.mints, Run(v, calls).ledger.mints;
      && |mints| <= |mints'|
      && (forall i | 0 <= i < |mints| :: mints'[i].leg == mints[i].leg)
      && (forall i | |mints| <= i < |mints'| :: mints'[i].leg.mintType != InitialAllocation)
  {
    hide Inv, Apply, Extends;
    if calls != [] {
      var before := Run(v, calls[..|calls| - 1]);
      GenesisClosedAlong(v, calls[..|calls| - 1]);
      CallKeepsInv(before, calls[|calls| - 1]);
      GenesisClosed(before, calls[|calls| - 1]);
      var i :| 0 <= i < |before.ledger.mints| && before.ledger.mints[i].leg.mintType == InitialAllocation;
      assert Run(v, calls).ledger.mints[i].leg.mintType == InitialAllocation;
    }
  }

  ghost predicate MadeFrom(e: MintEvent, a: Allocation) {
    e.leg.mintType == InitialAllocation && e.leg.member == a.member && e.leg.amount == a.amount
  }

  /** Once a non-empty distribution has succeeded, no later one does, whatever
      is called in between, and the allocation events stay those of its list. */
  lemma GenesisOnce(v: Tables, allocations: seq<Allocation>, approvedBy: string, calls: seq<Call>)
    requires Reachable(v) && allocations != [] && MintInitialAllocation(v, allocations, approvedBy).Success?
    ensures var n := |v.ledger.mints|;
      var v2 := Run(Apply(v, AllocateCall(allocations, approvedBy)), calls);
      && n + |allocations| <= |v2.ledger.mints|
      && (forall i | 0 <= i < |v2.ledger.mints| ::
            v2.ledger.mints[i].leg.mintType == InitialAllocation <==> n <= i < n + |allocations|)
      && (forall i: nat | i < |allocations| :: MadeFrom(v2.ledger.mints[n + i], allocations[i]))
      && forall again: seq<Allocation>, approver: string ::
           MintInitialAllocation(v2, again, approver) == Failure(AlreadyMinted)
  {
    hide Reachable, Inv, Run, Extends, MintInitialAllocation, Distributes, MadeFrom;
    var n, call := |v.ledger.mints|, AllocateCall(allocations, approvedBy);
    var v1 := Apply(v, call);
    var v2 := Run(v1, calls);
    GenesisOutcome(v, allocations, approvedBy);
    ReachableInv(v);
    CallKeepsInv(v, call);
    FromList(v.ledger, v1.ledger, allocations, v.policy.version, approvedBy);
    GenesisNow(v1, n, allocations[0]);
    GenesisClosedAlong(v1, calls);
    ListStands(v.ledger.mints, v1.ledger.mints, v2.ledger.mints, allocations);
    forall again: seq<Allocation>, approver: string
      ensures MintInitialAllocation(v2, again, approver) == Failure(AlreadyMinted)
    {
      GenesisOutcome(v2, again, approver);
    }
  }

  lemma GenesisNow(v: Tables, i: nat, a: Allocation)
    requires i < |v.ledger.mints| && MadeFrom(v.ledger.mints[i], a)
    ensures HasGenesis(v)
  {
  }

  /** From before to after to any later events: the allocations are the list's. */
  lemma ListStands(before: seq<MintEvent>, after: seq<MintEvent>, later: seq<MintEvent>, allocations: seq<Allocation>)
    requires |after| == |before| + |allocations| && after[..|before|] == before
    requires forall i | 0 <= i < |before| :: before[i].leg.mintType != InitialAllocation
    requires forall i: nat | i < |allocations| :: MadeFrom(after[|before| + i], allocations[i])
    requires |after| <= |later| && forall i | 0 <= i < |after| :: later[i].leg == after[i].leg
    requires forall i | |after| <= i < |later| :: later[i].leg.mintType != InitialAllocation
    ensures forall i | 0 <= i < |later| :: later[i].leg.mintType == InitialAllocation <==> |before| <= i < |after|
    ensures forall i: nat | i < |allocations| :: MadeFrom(later[|before| + i], allocations[i])
  {
    forall i | 0 <= i < |later|
      ensures later[i].leg.mintType == InitialAllocation <==> |before| <= i < |after|
    {
      if i < |before| {
        assert after[..|before|][i] == before[i];
      } else if i < |after| {
        assert MadeFrom(after[|before| + (i - |before|)], allocations[i - |before|]);
      }
    }
    forall i: nat | i < |allocations|
      ensures MadeFrom(later[|before| + i], allocations[i])
    {
      assert MadeFrom(after[|before| + i], allocations[i]);
    }
  }

  lemma FromList(l: Ledger, l': Ledger, allocations: seq<Allocation>, version: int, approvedBy: string)
    requires Distributes(l, l', allocations, version, approvedBy)
    ensures |l'.mints| == |l.mints| + |allocations| && l'.mints[..|l.mints|] == l.mints
    ensures forall i: nat | i < |allocations| :: MadeFrom(l'.mints[|l.mints| + i], allocations[i])
  {
    forall i: nat | i < |allocations|
      ensures MadeFrom(l'.mints[|l.mints| + i], allocations[i])
    {
      assert EventAt(l, l', allocations, i, version, approvedBy);
    }
  }
}
