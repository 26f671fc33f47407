/** Row locks taken one by one and held to the end. Transactions that lock in
    rank order cannot wait in a circle and can always move on. A rollover fits
    in just when it does not lock a balance before a mint event, and can
    deadlock just when it does. */
module LockOrder {

  datatype Row =
    | ProposalRow(id: nat)
    | EpochRow(id: nat)
    | PolicyRow
    | MintRow(id: nat)
    | StateRow
    | BalanceRow(member: string)
    | RequestRow(id: nat)

  /** Proposal or mint event before epoch-or-state before balance, as the
      services promise, refined so that a rollover's rows find a place. */
  function Rank(r: Row): nat {
    match r
    case ProposalRow(_) => 0
    case EpochRow(_) => 1
    case PolicyRow => 2
    case MintRow(_) => 3
    case StateRow => 4
    case BalanceRow(_) => 5
    case RequestRow(_) => 6
  }

  /** What ending a proposal goes on to update when the proposal passed. */
  datatype Settlement = NoEffect | ApprovesRequest(id: nat) | ArmsPolicy

  function Settles(s: Settlement): seq<Row> {
    match s
    case NoEffect => []
    case ApprovesRequest(id) => [RequestRow(id)]
    case ArmsPolicy => [PolicyRow]
  }

  /** The services' transactions with the rows they lock or update, in order.
      A rollover may activate a policy version, rolls the balances that hold
      pending power, flips the mint events that become active, and last resets
      the meters of all balances, of which the others are new to it. */
  datatype Transaction =
    | MintContribution(epoch: nat, member: string, splitRequest: seq<nat>)
    | DistributeGenesis(members: seq<string>)
    | CreateRequest(epoch: nat)
    | ExecuteAdvance(epoch: nat, member: string, request: nat)
    | ReverseMint(mint: nat, member: string)
    | ActivateProposal(proposal: nat, epoch: nat)
    | CastVote(proposal: nat)
    | EndProposal(proposal: nat, settlement: Settlement)
    | DecideRequest(request: nat)
    | CloseEpoch(epoch: nat, activates: bool, rolled: seq<string>, mints: seq<nat>, others: seq<string>)

  function Requests(ids: seq<nat>): seq<Row> {
    if ids == [] then [] else [RequestRow(ids[0])]
  }

  function Balances(members: seq<string>): seq<Row> {
    seq(|members|, i requires 0 <= i < |members| => BalanceRow(members[i]))
  }

  function Mints(ids: seq<nat>): seq<Row> {
    seq(|ids|, i requires 0 <= i < |ids| => MintRow(ids[i]))
  }

  function Opening(epoch: nat, activates: bool): seq<Row> {
    [EpochRow(epoch)] + if activates then [PolicyRow] else []
  }

  function Plan(t: Transaction): seq<Row> {
    match t
    case MintContribution(epoch, member, ids) => [EpochRow(epoch), StateRow, BalanceRow(member)] + Requests(ids)
    case DistributeGenesis(members) => [StateRow] + Balances(members)
    case CreateRequest(epoch) => [EpochRow(epoch)]
    case ExecuteAdvance(epoch, member, request) =>
      [EpochRow(epoch), StateRow, BalanceRow(member), RequestRow(request)]
    case ReverseMint(mint, member) => [MintRow(mint), StateRow, BalanceRow(member)]
    case ActivateProposal(proposal, epoch) => [ProposalRow(proposal), EpochRow(epoch), StateRow]
    case CastVote(proposal) => [ProposalRow(proposal)]
    case EndProposal(proposal, settlement) => [ProposalRow(proposal)] + Settles(settlement)
    case DecideRequest(request) => [RequestRow(request)]
    case CloseEpoch(epoch, activates, rolled, mints, others) =>
      Opening(epoch, activates) + Balances(rolled) + Mints(mints) + Balances(others)
  }

  ghost predicate InRankOrder(plan: seq<Row>) {
    forall i, j | 0 <= i < j < |plan| :: Rank(plan[i]) < Rank(plan[j])
  }

  /** The same but for rows of one rank, such as several balances. */
  ghost predicate NoneTooLate(plan: seq<Row>) {
    forall i, j | 0 <= i < j < |plan| :: Rank(plan[i]) <= Rank(plan[j])
  }

  /** Every transaction but the two that take several balances locks in rank
      order. */
  lemma PlansInRankOrder(t: Transaction)
    requires !t.CloseEpoch? && !t.DistributeGenesis?
    ensures InRankOrder(Plan(t))
  {
  }

  /** A genesis distribution does when it is for one member at most. */
  lemma GenesisInRankOrderIff(members: seq<string>)
    ensures InRankOrder(Plan(DistributeGenesis(members))) <==> |members| <= 1
  {
    if |members| > 1 {
      assert Rank(Plan(DistributeGenesis(members))[1]) == Rank(Plan(DistributeGenesis(members))[2]);
    }
  }

  /** The rollover takes no row too late exactly when it does not both roll a
      balance and flip a mint event. */
  lemma CloseEpochInOrderIff(t: Transaction)
    requires t.CloseEpoch?
    ensures NoneTooLate(Plan(t)) <==> t.rolled == [] || t.mints == []
  {
    var plan := Plan(t);
    var first := |Opening(t.epoch, t.activates)|;
    if t.rolled != [] && t.mints != [] {
      assert plan[first] == BalanceRow(t.rolled[0]);
      assert plan[first + |t.rolled|] == MintRow(t.mints[0]);
    }
  }

  // ---- Running transactions ----

  /** How many locks of its plan each transaction holds, and who is done. */
  datatype System = System(plans: seq<seq<Row>>, held: seq<nat>, done: seq<bool>)

  ghost predicate Shaped(s: System) {
    && |s.plans| == |s.held| == |s.done|
    && forall t | 0 <= t < |s.plans| :: s.held[t] <= |s.plans[t]|
  }

  ghost predicate Holds(s: System, t: nat, r: Row)
    requires Shaped(s)
  {
    t < |s.plans| && !s.done[t] && exists k | 0 <= k < s.held[t] :: s.plans[t][k] == r
  }

  ghost predicate Wants(s: System, t: nat)
    requires Shaped(s)
  {
    t < |s.plans| && !s.done[t] && s.held[t] < |s.plans[t]|
  }

  function Wanted(s: System, t: nat): Row
    requires |s.plans| == |s.held| && t < |s.plans| && s.held[t] < |s.plans[t]|
  {
    s.plans[t][s.held[t]]
  }

  ghost predicate WaitsFor(s: System, t: nat, u: nat)
    requires Shaped(s)
  {
    t != u && Wants(s, t) && Holds(s, u, Wanted(s, t))
  }

  ghost predicate CanLock(s: System, t: nat)
    requires Shaped(s)
  {
    Wants(s, t) && forall u: nat | u < |s.plans| && u != t :: !Holds(s, u, Wanted(s, t))
  }

  ghost predicate CanCommit(s: System, t: nat)
    requires Shaped(s)
  {
    t < |s.plans| && !s.done[t] && s.held[t] == |s.plans[t]|
  }

  /** One lock is granted, or one transaction ends (commit, or a rollback at
      any point) and frees its rows. */
  ghost predicate Step(s: System, s': System, t: nat)
    requires Shaped(s)
  {
    || (CanLock(s, t) && s' == s.(held := s.held[t := s.held[t] + 1]))
    || (t < |s.plans| && !s.done[t] && s' == s.(done := s.done[t := true]))
  }

  function Start(plans: seq<seq<Row>>): System {
    System(plans, seq(|plans|, i => 0), seq(|plans|, i => false))
  }

  ghost predicate Reach(plans: seq<seq<Row>>, n: nat, s: System)
    decreases n
  {
    if n == 0 then s == Start(plans)
    else exists before: System, t: nat :: Reach(plans, n - 1, before) && Shaped(before) && Step(before, s, t)
  }

  /** No row is held by two transactions. */
  ghost predicate Exclusive(s: System)
    requires Shaped(s)
  {
    forall t: nat, u: nat, r: Row | Holds(s, t, r) && Holds(s, u, r) :: t == u
  }

  lemma {:induction false} ReachFacts(plans: seq<seq<Row>>, n: nat, s: System)
    requires Reach(plans, n, s)
    ensures Shaped(s) && s.plans == plans && Exclusive(s)
    decreases n
  {
    hide Step, Exclusive;
    if n == 0 {
      StartExclusive(plans);
    } else {
      var before, t :| Reach(plans, n - 1, before) && Shaped(before) && Step(before, s, t);
      ReachFacts(plans, n - 1, before);
      StepExclusive(before, s, t);
    }
  }

  lemma StartExclusive(plans: seq<seq<Row>>)
    ensures Shaped(Start(plans)) && Exclusive(Start(plans))
  {
  }

  lemma StepExclusive(s: System, s': System, t: nat)
    requires Shaped(s) && Exclusive(s) && Step(s, s', t)
    ensures Shaped(s') && s'.plans == s.plans && Exclusive(s')
  {
    forall a: nat, b: nat, r: Row | Holds(s', a, r) && Holds(s', b, r)
      ensures a == b
    {
      HoldsBefore(s, s', t, a, r);
      HoldsBefore(s, s', t, b, r);
    }
  }

  /** A row held after a step was held before it, or was just granted. */
  lemma HoldsBefore(s: System, s': System, t: nat, a: nat, r: Row)
    requires Shaped(s) && Step(s, s', t) && Shaped(s') && Holds(s', a, r)
    ensures Holds(s, a, r) || (a == t && CanLock(s, t) && r == Wanted(s, t))
  {
    var k :| 0 <= k < s'.held[a] && s'.plans[a][k] == r;
    if k < s.held[a] {
      assert Holds(s, a, r);
    }
  }

  // ---- No deadlock ----

  /** A plan in rank order; or one with rows of equal rank that goes through the
      gate first, a row nothing after it ranks with. */
  ghost predicate Orderly(plan: seq<Row>, gate: Row) {
    || InRankOrder(plan)
    || (&& NoneTooLate(plan) && plan != [] && plan[0] == gate
        && forall i | 0 < i < |plan| :: Rank(gate) < Rank(plan[i]))
  }

  ghost predicate Ordered(s: System, gate: Row) {
    forall t | 0 <= t < |s.plans| :: Orderly(s.plans[t], gate)
  }

  /** t's plan has rows of one rank, and t is past the gate. */
  ghost predicate Inside(s: System, t: nat)
    requires Shaped(s)
  {
    t < |s.plans| && !InRankOrder(s.plans[t]) && s.held[t] > 0
  }

  /** Who holds what another waits for waits higher up itself, or is the one
      inside the gate and waits no lower. */
  lemma WaitingClimbs(s: System, gate: Row, t: nat, u: nat)
    requires Shaped(s) && Exclusive(s) && Ordered(s, gate) && WaitsFor(s, t, u) && Wants(s, u)
    ensures Rank(Wanted(s, t)) <= Rank(Wanted(s, u))
    ensures Rank(Wanted(s, t)) == Rank(Wanted(s, u)) ==> Inside(s, u) && !Inside(s, t)
  {
    var k :| 0 <= k < s.held[u] && s.plans[u][k] == Wanted(s, t);
    assert Orderly(s.plans[u], gate);
    if !InRankOrder(s.plans[u]) && Inside(s, t) {
      assert Orderly(s.plans[t], gate);
      assert Holds(s, t, gate) by { assert s.plans[t][0] == gate; }
      assert Holds(s, u, gate) by { assert s.plans[u][0] == gate; }
    }
  }

  /** A chain of waits. */
  ghost predicate WaitChain(s: System, chain: seq<nat>)
    requires Shaped(s)
  {
    chain != [] && forall i | 0 <= i < |chain| - 1 :: WaitsFor(s, chain[i], chain[i + 1])
  }

  /** Where a waiting transaction stands: the rank it waits at counts first. */
  ghost function Level(s: System, t: nat): int
    requires Shaped(s)
  {
    if Wants(s, t) then 2 * Rank(Wanted(s, t)) + if Inside(s, t) then 1 else 0 else 0
  }

  /** Every wait for a transaction that waits itself leads strictly upwards. */
  ghost predicate Climbs(s: System, level: nat -> int)
    requires Shaped(s)
  {
    forall t: nat, u: nat :: WaitsFor(s, t, u) && Wants(s, u) ==> level(t) < level(u)
  }

  lemma OrderedClimbs(s: System, gate: Row) returns (level: nat -> int)
    requires Shaped(s) && Exclusive(s) && Ordered(s, gate)
    ensures Climbs(s, level) && forall t: nat :: level(t) <= MAX_LEVEL
  {
    ghost var levels := (t: nat) => Level(s, t);
    level := levels;
    forall t: nat
      ensures level(t) <= MAX_LEVEL
    {
    }
    forall t: nat, u: nat | WaitsFor(s, t, u) && Wants(s, u)
      ensures level(t) < level(u)
    {
      WaitingClimbs(s, gate, t, u);
    }
  }

  const MAX_LEVEL := 20

  lemma {:induction false} ChainClimbs(s: System, level: nat -> int, chain: seq<nat>)
    requires Shaped(s) && Climbs(s, level) && WaitChain(s, chain) && |chain| > 1
    requires Wants(s, chain[|chain| - 1])
    ensures Wants(s, chain[0]) && level(chain[0]) < level(chain[|chain| - 1])
    decreases |chain|
  {
    assert WaitsFor(s, chain[0], chain[1]);
    if |chain| > 2 {
      var rest := chain[1..];
      forall i | 0 <= i < |rest| - 1
        ensures WaitsFor(s, rest[i], rest[i + 1])
      {
        assert WaitsFor(s, chain[i + 1], chain[i + 2]);
      }
      ChainClimbs(s, level, rest);
    }
  }

  /** The wait-for graph has no cycle. */
  lemma NoWaitCycle(s: System, level: nat -> int, chain: seq<nat>)
    requires Shaped(s) && Climbs(s, level) && WaitChain(s, chain) && |chain| > 1
    ensures chain[0] != chain[|chain| - 1]
  {
    hide Climbs;
    if chain[0] == chain[|chain| - 1] {
      assert WaitsFor(s, chain[0], chain[1]);
      ChainClimbs(s, level, chain);
    }
  }

  /** From any unfinished transaction, following the waits leads to one that
      can take its next lock or commit. */
  lemma {:induction false} SomeoneCanMove(s: System, level: nat -> int, t: nat) returns (u: nat)
    requires Shaped(s) && Climbs(s, level) && t < |s.plans| && !s.done[t]
    requires forall x: nat :: level(x) <= MAX_LEVEL
    ensures CanLock(s, u) || CanCommit(s, u)
    decreases MAX_LEVEL - level(t)
  {
    u := t;
    if Wants(s, t) && !CanLock(s, t) {
      var holder: nat :| holder < |s.plans| && holder != t && Holds(s, holder, Wanted(s, t));
      if Wants(s, holder) {
        assert WaitsFor(s, t, holder);
        u := SomeoneCanMove(s, level, holder);
      } else {
        u := holder;
      }
    }
  }

  /** Rows have one holder, waits form no cycle, and while one transaction is
      unfinished one can move. */
  ghost predicate Live(s: System) {
    && Shaped(s) && Exclusive(s)
    && (forall chain: seq<nat> | WaitChain(s, chain) && |chain| > 1 :: chain[0] != chain[|chain| - 1])
    && ((exists t: nat :: t < |s.plans| && !s.done[t]) ==> exists u: nat :: CanLock(s, u) || CanCommit(s, u))
  }

  lemma ClimbingIsLive(s: System, level: nat -> int)
    requires Shaped(s) && Exclusive(s) && Climbs(s, level) && forall t: nat :: level(t) <= MAX_LEVEL
    ensures Live(s)
  {
    hide Exclusive, Climbs;
    forall chain: seq<nat> | WaitChain(s, chain) && |chain| > 1
      ensures chain[0] != chain[|chain| - 1]
    {
      NoWaitCycle(s, level, chain);
    }
    if t: nat :| t < |s.plans| && !s.done[t] {
      var u := SomeoneCanMove(s, level, t);
    }
  }

  lemma OrderedIsLive(s: System, gate: Row)
    requires Shaped(s) && Exclusive(s) && Ordered(s, gate)
    ensures Live(s)
  {
    hide Live, Exclusive, Ordered, Climbs;
    var level := OrderedClimbs(s, gate);
    ClimbingIsLive(s, level);
  }

  function Plans(ts: seq<Transaction>): seq<seq<Row>> {
    seq(|ts|, i requires 0 <= i < |ts| => Plan(ts[i]))
  }

  /** Several balances are safe behind one gate: the row of one epoch for its
      rollovers that take no row too late, or the state row for genesis. */
  ghost predicate Gated(t: Transaction, gate: Row) {
    && (t.CloseEpoch? ==> gate == EpochRow(t.epoch) && NoneTooLate(Plan(t)))
    && (t.DistributeGenesis? ==> gate == StateRow || |t.members| <= 1)
  }

  /** Any mix of the services' transactions, in any state they can reach, as
      long as those that take several balances share their gate. */
  lemma DeadlockFree(ts: seq<Transaction>, gate: Row, n: nat, s: System)
    requires forall i | 0 <= i < |ts| :: Gated(ts[i], gate)
    requires Reach(Plans(ts), n, s)
    ensures Live(s)
  {
    hide Live, Reach, Exclusive, NoneTooLate, InRankOrder, Orderly, Plan, Gated;
    ReachFacts(Plans(ts), n, s);
    forall t | 0 <= t < |s.plans|
      ensures Orderly(s.plans[t], gate)
    {
      GatedIsOrderly(ts[t], gate);
    }
    OrderedIsLive(s, gate);
  }

  lemma GatedIsOrderly(t: Transaction, gate: Row)
    requires Gated(t, gate)
    ensures Orderly(Plan(t), gate)
  {
    hide Plan, InRankOrder, NoneTooLate;
    if t.CloseEpoch? {
      OpensWithEpoch(t);
    } else if t.DistributeGenesis? {
      OpensWithState(t);
      GenesisInRankOrderIff(t.members);
    } else {
      PlansInRankOrder(t);
    }
  }

  lemma OpensWithState(t: Transaction)
    requires t.DistributeGenesis?
    ensures Plan(t) != [] && Plan(t)[0] == StateRow && NoneTooLate(Plan(t))
    ensures forall i | 0 < i < |Plan(t)| :: Rank(StateRow) < Rank(Plan(t)[i])
  {
  }

  lemma OpensWithEpoch(t: Transaction)
    requires t.CloseEpoch?
    ensures Plan(t) != [] && Plan(t)[0] == EpochRow(t.epoch)
    ensures forall i | 0 < i < |Plan(t)| :: Rank(EpochRow(t.epoch)) < Rank(Plan(t)[i])
  {
  }

  // ---- When a rollover can deadlock ----

  /** With some other transactions in rank order the rollover can get to a state
      that is not live. */
  ghost predicate CanGetStuck(t: Transaction) {
    exists others: seq<Transaction>, n: nat, s: System ::
      && (forall i | 0 <= i < |others| :: InRankOrder(Plan(others[i])))
      && Reach(Plans([t] + others), n, s) && !Live(s)
  }

  /** A rollover can deadlock with transactions in rank order exactly when it
      both rolls a balance and flips a mint event. */
  lemma RolloverDeadlocksIff(t: Transaction)
    requires t.CloseEpoch?
    ensures CanGetStuck(t) <==> t.rolled != [] && t.mints != []
  {
    hide Reach, Live, Plan, NoneTooLate;
    CloseEpochInOrderIff(t);
    if t.rolled != [] && t.mints != [] {
      RolloverDeadlocks(t);
    } else if CanGetStuck(t) {
      var others: seq<Transaction>, n: nat, s: System :|
        (forall i | 0 <= i < |others| :: InRankOrder(Plan(others[i]))) && Reach(Plans([t] + others), n, s) && !Live(s);
      OrderedDeadlockFree(t, others, n, s);
    }
  }

  lemma OrderedDeadlockFree(t: Transaction, others: seq<Transaction>, n: nat, s: System)
    requires t.CloseEpoch? && NoneTooLate(Plan(t))
    requires forall i | 0 <= i < |others| :: InRankOrder(Plan(others[i]))
    requires Reach(Plans([t] + others), n, s)
    ensures Live(s)
  {
    hide Live, Reach, Exclusive, NoneTooLate, InRankOrder;
    var plans := Plans([t] + others);
    ReachFacts(plans, n, s);
    OpensWithEpoch(t);
    forall i | 0 <= i < |plans|
      ensures Orderly(plans[i], EpochRow(t.epoch))
    {
    }
    OrderedIsLive(s, EpochRow(t.epoch));
  }

  /** The stuck state: the rollover has rolled its balances and wants the first
      mint event, a reversal of that event has locked it and the state row, and
      wants a balance that was rolled. */
  lemma RolloverDeadlocks(t: Transaction)
    requires t.CloseEpoch? && t.rolled != [] && t.mints != []
    ensures CanGetStuck(t)
  {
    hide Reach, Live;
    var other := ReverseMint(t.mints[0], t.rolled[0]);
    var plans := Plans([t] + [other]);
    assert plans == [Plan(t), Plan(other)];
    var k := |Opening(t.epoch, t.activates)| + |t.rolled|;
    assert Plan(t)[k] == MintRow(t.mints[0]);
    var h := |Opening(t.epoch, t.activates)|;
    assert Plan(t)[h] == BalanceRow(t.rolled[0]);
    ReachStart(plans, Pair(plans, 0, 0));
    PairReach(plans, 0, 0, 0, 1);
    PairReach(plans, 1, 0, 1, 1);
    forall i | 0 <= i < k
      ensures Plan(t)[i] != MintRow(t.mints[0]) && Plan(t)[i] != StateRow
    {
    }
    RolloverAlone(plans, k);
    PairStuck(plans, k, h);
    assert Reach(Plans([t] + [other]), k + 2, Pair(plans, k, 2)) && !Live(Pair(plans, k, 2));
  }

  /** With two locks in the other's hands, the rollover takes its first k. */
  lemma {:induction false} RolloverAlone(plans: seq<seq<Row>>, k: nat)
    requires |plans| == 2 && k <= |plans[0]| && |plans[1]| == 3
    requires Reach(plans, 2, Pair(plans, 0, 2))
    requires forall i | 0 <= i < k :: plans[0][i] != plans[1][0] && plans[0][i] != plans[1][1]
    ensures Reach(plans, k + 2, Pair(plans, k, 2))
  {
    hide Reach;
    if k > 0 {
      RolloverAlone(plans, k - 1);
      PairReach(plans, k + 1, k - 1, 2, 0);
    }
  }

  /** Two running transactions that hold h0 and h1 locks. */
  function Pair(plans: seq<seq<Row>>, h0: nat, h1: nat): System {
    System(plans, [h0, h1], [false, false])
  }

  /** One of the two takes its next lock when the other does not hold it. */
  lemma PairReach(plans: seq<seq<Row>>, n: nat, h0: nat, h1: nat, t: nat)
    requires |plans| == 2 && h0 <= |plans[0]| && h1 <= |plans[1]| && t < 2
    requires Reach(plans, n, Pair(plans, h0, h1))
    requires if t == 0 then h0 < |plans[0]| && plans[0][h0] !in plans[1][..h1]
             else h1 < |plans[1]| && plans[1][h1] !in plans[0][..h0]
    ensures Reach(plans, n + 1, if t == 0 then Pair(plans, h0 + 1, h1) else Pair(plans, h0, h1 + 1))
  {
    hide Reach;
    var s := Pair(plans, h0, h1);
    var s' := if t == 0 then Pair(plans, h0 + 1, h1) else Pair(plans, h0, h1 + 1);
    forall u: nat | u < 2 && u != t
      ensures !Holds(s, u, Wanted(s, t))
    {
      NotHeld(s, u, Wanted(s, t));
    }
    assert CanLock(s, t);
    assert s' == s.(held := s.held[t := s.held[t] + 1]);
    ReachNext(plans, n, s, s', t);
  }

  lemma NotHeld(s: System, t: nat, row: Row)
    requires Shaped(s) && t < |s.plans| && row !in s.plans[t][..s.held[t]]
    ensures !Holds(s, t, row)
  {
    forall k: nat | k < s.held[t]
      ensures s.plans[t][k] != row
    {
      assert s.plans[t][..s.held[t]][k] == s.plans[t][k];
    }
  }

  lemma PairStuck(plans: seq<seq<Row>>, k: nat, h: nat)
    requires |plans| == 2 && k < |plans[0]| && |plans[1]| == 3 && h < k
    requires plans[0][k] == plans[1][0] && plans[1][2] == plans[0][h]
    ensures !Live(Pair(plans, k, 2))
  {
    var s := Pair(plans, k, 2);
    assert Holds(s, 1, Wanted(s, 0)) by { assert s.plans[1][0] == Wanted(s, 0); }
    assert Holds(s, 0, Wanted(s, 1)) by { assert s.plans[0][h] == Wanted(s, 1); }
    assert WaitChain(s, [0, 1, 0]);
  }

  // ---- Two transactions that take several balances ----

  /** The first wants a row the second already has and the second one the first
      has, each holding nothing that would have stopped the other before. */
  ghost predicate Crossing(p: seq<Row>, q: seq<Row>, k: nat, j: nat) {
    && k < |p| && j < |q|
    && p[k] in q[..j] && q[j] in p[..k]
    && forall row <- p[..k] :: row !in q[..j]
  }

  /** With some other transactions in rank order the two can get to a state that
      is not live. */
  ghost predicate PairCanGetStuck(p: seq<Row>, q: seq<Row>) {
    exists others: seq<seq<Row>>, n: nat, s: System ::
      && (forall i | 0 <= i < |others| :: InRankOrder(others[i]))
      && Reach([p, q] + others, n, s) && !Live(s)
  }

  /** Two transactions that take no row too late, a rollover and a genesis
      distribution for instance, can deadlock exactly when their plans cross. */
  lemma PairDeadlocksIff(p: seq<Row>, q: seq<Row>)
    requires NoneTooLate(p) && NoneTooLate(q)
    ensures PairCanGetStuck(p, q) <==> exists k: nat, j: nat :: Crossing(p, q, k, j)
  {
    hide Reach, Live, NoneTooLate, Crossing;
    if k: nat, j: nat :| Crossing(p, q, k, j) {
      CrossingDeadlocks(p, q, k, j);
    } else if PairCanGetStuck(p, q) {
      var others: seq<seq<Row>>, n: nat, s: System :|
        (forall i | 0 <= i < |others| :: InRankOrder(others[i])) && Reach([p, q] + others, n, s) && !Live(s);
      ReachFacts([p, q] + others, n, s);
      PairIsLive(s);
    }
  }

  /** In particular a rollover that takes no row too late and a distribution. */
  lemma GenesisDeadlocksIff(t: Transaction, members: seq<string>)
    requires t.CloseEpoch? && (t.rolled == [] || t.mints == [])
    ensures var p, q := Plan(t), Plan(DistributeGenesis(members));
      PairCanGetStuck(p, q) <==> exists k: nat, j: nat :: Crossing(p, q, k, j)
  {
    hide PairCanGetStuck, Crossing, Plan, NoneTooLate;
    CloseEpochInOrderIff(t);
    OpensWithState(DistributeGenesis(members));
    PairDeadlocksIff(Plan(t), Plan(DistributeGenesis(members)));
  }

  /** It takes just two members in opposite order. */
  lemma GenesisCanDeadlock(epoch: nat, a: string, b: string)
    requires a != b
    ensures PairCanGetStuck(Plan(CloseEpoch(epoch, false, [a, b], [], [])), Plan(DistributeGenesis([b, a])))
  {
    var p, q := Plan(CloseEpoch(epoch, false, [a, b], [], [])), Plan(DistributeGenesis([b, a]));
    assert p == [EpochRow(epoch), BalanceRow(a), BalanceRow(b)];
    assert q == [StateRow, BalanceRow(b), BalanceRow(a)];
    assert p[..2] == [EpochRow(epoch), BalanceRow(a)] && q[..2] == [StateRow, BalanceRow(b)];
    assert Crossing(p, q, 2, 2);
    CrossingDeadlocks(p, q, 2, 2);
  }

  lemma CrossingDeadlocks(p: seq<Row>, q: seq<Row>, k: nat, j: nat)
    requires Crossing(p, q, k, j)
    ensures PairCanGetStuck(p, q)
  {
    hide Reach, Live;
    var plans := [p, q];
    ReachStart(plans, Pair(plans, 0, 0));
    FirstAlone(plans, k);
    SecondBeside(plans, k, j);
    CrossedStuck(plans, k, j);
    assert [p, q] + [] == plans;
    assert Reach([p, q] + [], k + j, Pair(plans, k, j));
  }

  lemma {:induction false} FirstAlone(plans: seq<seq<Row>>, k: nat)
    requires |plans| == 2 && k <= |plans[0]| && Reach(plans, 0, Pair(plans, 0, 0))
    ensures Reach(plans, k, Pair(plans, k, 0))
  {
    hide Reach;
    if k > 0 {
      FirstAlone(plans, k - 1);
      PairReach(plans, k - 1, k - 1, 0, 0);
    }
  }

  lemma {:induction false} SecondBeside(plans: seq<seq<Row>>, k: nat, j: nat)
    requires |plans| == 2 && k <= |plans[0]| && j <= |plans[1]| && Reach(plans, k, Pair(plans, k, 0))
    requires forall row <- plans[0][..k] :: row !in plans[1][..j]
    ensures Reach(plans, k + j, Pair(plans, k, j))
  {
    hide Reach;
    if j > 0 {
      assert plans[1][..j - 1] == plans[1][..j][..j - 1];
      assert plans[1][j - 1] == plans[1][..j][j - 1];
      SecondBeside(plans, k, j - 1);
      PairReach(plans, k + j - 1, k, j - 1, 1);
    }
  }

  lemma CrossedStuck(plans: seq<seq<Row>>, k: nat, j: nat)
    requires |plans| == 2 && Crossing(plans[0], plans[1], k, j)
    ensures !Live(Pair(plans, k, j))
  {
    var s := Pair(plans, k, j);
    HeldBy(s, 1, Wanted(s, 0));
    HeldBy(s, 0, Wanted(s, 1));
    assert WaitChain(s, [0, 1, 0]);
  }

  lemma HeldBy(s: System, t: nat, row: Row)
    requires Shaped(s) && t < |s.plans| && !s.done[t] && row in s.plans[t][..s.held[t]]
    ensures Holds(s, t, row)
  {
    var k :| 0 <= k < s.held[t] && s.plans[t][..s.held[t]][k] == row;
    assert s.plans[t][k] == row;
  }

  /** Of the two the one that is waited for stands higher. */
  ghost function PairLevel(s: System, t: nat): int
    requires Shaped(s)
  {
    if !Wants(s, t) then 0
    else 3 * Rank(Wanted(s, t)) + if t > 1 then 0 else if WaitsFor(s, 1 - t, t) then 2 else 1
  }

  /** Without a crossing the two never wait for each other, and then all waits
      lead upwards. */
  lemma PairIsLive(s: System)
    requires Shaped(s) && Exclusive(s) && |s.plans| >= 2
    requires NoneTooLate(s.plans[0]) && NoneTooLate(s.plans[1])
    requires forall t | 2 <= t < |s.plans| :: InRankOrder(s.plans[t])
    requires forall k: nat, j: nat :: !Crossing(s.plans[0], s.plans[1], k, j)
    ensures Live(s)
  {
    hide Live, Crossing, Exclusive;
    NotBothWait(s);
    var level := (t: nat) => PairLevel(s, t);
    forall t: nat, u: nat | WaitsFor(s, t, u) && Wants(s, u)
      ensures level(t) < level(u)
    {
      PairWaitClimbs(s, t, u);
    }
    ClimbingIsLive(s, level);
  }

  lemma PairWaitClimbs(s: System, t: nat, u: nat)
    requires Shaped(s) && |s.plans| >= 2
    requires NoneTooLate(s.plans[0]) && NoneTooLate(s.plans[1])
    requires forall i | 2 <= i < |s.plans| :: InRankOrder(s.plans[i])
    requires !(WaitsFor(s, 0, 1) && WaitsFor(s, 1, 0))
    requires WaitsFor(s, t, u) && Wants(s, u)
    ensures PairLevel(s, t) < PairLevel(s, u)
  {
    var k :| 0 <= k < s.held[u] && s.plans[u][k] == Wanted(s, t);
    assert Rank(s.plans[u][k]) <= Rank(s.plans[u][s.held[u]]);
  }

  lemma NotBothWait(s: System)
    requires Shaped(s) && Exclusive(s) && |s.plans| >= 2
    requires forall k: nat, j: nat :: !Crossing(s.plans[0], s.plans[1], k, j)
    ensures !(WaitsFor(s, 0, 1) && WaitsFor(s, 1, 0))
  {
    if WaitsFor(s, 0, 1) && WaitsFor(s, 1, 0) {
      var p, q, k, j := s.plans[0], s.plans[1], s.held[0], s.held[1];
      InPrefix(s, 1, p[k]);
      InPrefix(s, 0, q[j]);
      forall row <- p[..k]
        ensures row !in q[..j]
      {
        if row in q[..j] {
          HeldBy(s, 0, row);
          HeldBy(s, 1, row);
        }
      }
      assert Crossing(p, q, k, j);
    }
  }

  lemma InPrefix(s: System, t: nat, row: Row)
    requires Shaped(s) && Holds(s, t, row)
    ensures row in s.plans[t][..s.held[t]]
  {
    var k :| 0 <= k < s.held[t] && s.plans[t][k] == row;
    assert s.plans[t][..s.held[t]][k] == row;
  }

  lemma ReachStart(plans: seq<seq<Row>>, s: System)
    requires s == Start(plans)
    ensures Reach(plans, 0, s)
  {
  }

  lemma ReachNext(plans: seq<seq<Row>>, n: nat, s: System, s': System, t: nat)
    requires Reach(plans, n, s) && Shaped(s) && Step(s, s', t)
    ensures Reach(plans, n + 1, s')
  {
  }
}
