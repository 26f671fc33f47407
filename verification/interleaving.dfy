/** Advance execution split at its lock: the request row is read first, the
    epoch row is locked later, and anything may commit in between. Every such
    interleaving leaves the tables some serial run leaves. */
module Interleaving {
  import opened Wrappers
  import opened Types
  import opened AdvanceRules
  import opened Invariant
  import opened History
  import opened ServiceInvariants
  import opened Runs
  import opened GovernanceTheorems

  /** A transaction that has read its request and waits for the epoch lock. */
  datatype Waiting = Waiting(rid: nat, req: AdvanceRequest)

  datatype System = System(tables: Tables, waiting: map<nat, Waiting>)

  datatype Step =
    | ReadRequest(tid: nat, rid: nat)
    | LockAndRun(tid: nat)
    | Whole(call: Call)

  /** The pre-lock read goes on to wait only for an approved request. */
  ghost predicate Enabled(s: System, step: Step) {
    match step
    case ReadRequest(tid, rid) =>
      tid !in s.waiting && rid < |s.tables.requests| && s.tables.requests[rid].status == Approved
    case LockAndRun(tid) => tid in s.waiting
    case Whole(_) => true
  }

  ghost function Next(s: System, step: Step): System
    requires Enabled(s, step)
  {
    match step
    case ReadRequest(tid, rid) => s.(waiting := s.waiting[tid := Waiting(rid, s.tables.requests[rid])])
    case LockAndRun(tid) =>
      var w := s.waiting[tid];
      System(After(s.tables, ExecuteLocked(s.tables, w.rid, w.req)), s.waiting - {tid})
    case Whole(call) => s.(tables := Apply(s.tables, call))
  }

  /** s is reached from the tables v, with nothing waiting, by these steps;
      calls is what a serial observer would have seen. */
  ghost predicate Trace(v: Tables, steps: seq<Step>, calls: seq<Call>, s: System)
    decreases |steps|
  {
    if steps == [] then calls == [] && s == System(v, map[])
    else
      var last := steps[|steps| - 1];
      exists before: System, earlier: seq<Call> ::
        && Trace(v, steps[..|steps| - 1], earlier, before)
        && Enabled(before, last)
        && s == Next(before, last)
        && calls == earlier + SerialCall(before, last)
  }

  /** A read leaves no trace; a locked body is one execute call. */
  ghost function SerialCall(s: System, step: Step): seq<Call>
    requires Enabled(s, step)
  {
    match step
    case ReadRequest(_, _) => []
    case LockAndRun(tid) => [ExecuteCall(s.waiting[tid].rid)]
    case Whole(call) => [call]
  }

  /** Every waiting transaction holds an earlier version of its row. */
  ghost predicate ReadsStand(s: System) {
    forall tid | tid in s.waiting :: ReadEarlier(s.tables, s.waiting[tid].rid, s.waiting[tid].req)
  }

  lemma ReadsSurvive(v: Tables, v': Tables, rid: nat, req: AdvanceRequest)
    requires ReadEarlier(v, rid, req) && Extends(v, v')
    ensures ReadEarlier(v', rid, req)
  {
    hide MintsExtend, EpochsExtend, ProposalsExtend, VotesExtend, SnapshotsExtend, BallotsFinal;
    assert RequestKept(v.requests[rid], v'.requests[rid]);
  }

  /** Under the lock, an out-of-date read does to the tables just what reading
      under the lock would have done. */
  lemma StaleReadIsHarmless(v: Tables, rid: nat, req: AdvanceRequest)
    requires Inv(v) && ReadEarlier(v, rid, req)
    ensures After(v, ExecuteLocked(v, rid, req)) == After(v, Execute(v, rid))
    ensures ExecuteLocked(v, rid, req) != Execute(v, rid) ==>
      v.requests[rid].status == Executed
      && ExecuteLocked(v, rid, req) == Failure(EpochNotActive)
      && (req.epochId < |v.ledger.epochs| ==> v.ledger.epochs[req.epochId].status != Active)
  {
    hide Inv, Extends;
    if v.requests[rid].status == Executed {
      ExecutedHasMint(v, rid);
      ReplaysOnly(v, rid, req);
    } else {
      SameRow(v, rid, req);
      hide ExecuteLocked;
    }
  }

  lemma SameRow(v: Tables, rid: nat, req: AdvanceRequest)
    requires ReadEarlier(v, rid, req) && v.requests[rid].status != Executed
    ensures v.requests[rid] == req
  {
  }

  /** When the event exists, both the early and the late read write nothing. */
  lemma ReplaysOnly(v: Tables, rid: nat, req: AdvanceRequest)
    requires MintOfRequest(v.ledger.mints, rid).Some?
    ensures After(v, ExecuteLocked(v, rid, req)) == v
    ensures if req.epochId < |v.ledger.epochs| && v.ledger.epochs[req.epochId].status == Active
      then ExecuteLocked(v, rid, req)
        == Success((v, ReplayOf(v.ledger.mints, MintOfRequest(v.ledger.mints, rid).value)))
      else ExecuteLocked(v, rid, req) == Failure(EpochNotActive)
  {
  }

  lemma ExecutedHasMint(v: Tables, rid: nat)
    requires Inv(v) && rid < |v.requests| && v.requests[rid].status == Executed
    ensures MintOfRequest(v.ledger.mints, rid).Some?
  {
    hide BoardOk, VersionsOk, PolicyOk, RequestsOk, SingleUseOk, AdvanceEventOk;
  }

  /** Any interleaving of reads, locked bodies and whole calls leaves the
      tables of the serial run of its calls. */
  lemma {:induction false} InterleavingIsSerial(v: Tables, steps: seq<Step>, calls: seq<Call>, s: System)
    requires Inv(v) && Trace(v, steps, calls, s)
    ensures s.tables == Run(v, calls)
    ensures Inv(s.tables) && ReadsStand(s)
    decreases |steps|
  {
    hide Inv, Extends, Apply, ReadEarlier, ExecuteLocked;
    if steps != [] {
      var last := steps[|steps| - 1];
      var before, earlier :| Trace(v, steps[..|steps| - 1], earlier, before) && Enabled(before, last)
        && s == Next(before, last) && calls == earlier + SerialCall(before, last);
      InterleavingIsSerial(v, steps[..|steps| - 1], earlier, before);
      StepIsSerial(before, last);
      RunJoin(v, earlier, SerialCall(before, last));
    }
  }

  lemma StepIsSerial(s: System, step: Step)
    requires Inv(s.tables) && ReadsStand(s) && Enabled(s, step)
    ensures Next(s, step).tables == Run(s.tables, SerialCall(s, step))
    ensures Inv(Next(s, step).tables) && ReadsStand(Next(s, step))
  {
    hide Inv, Extends, ReadEarlier, ExecuteLocked, Execute;
    var s' := Next(s, step);
    var calls := SerialCall(s, step);
    RunKeepsInv(s.tables, calls);
    match step {
      case ReadRequest(tid, rid) =>
        FreshRead(s.tables, rid);
      case LockAndRun(tid) =>
        var w := s.waiting[tid];
        StaleReadIsHarmless(s.tables, w.rid, w.req);
        RunOne(s.tables, calls[0]);
      case Whole(call) =>
        RunOne(s.tables, call);
    }
    forall tid | tid in s'.waiting && tid in s.waiting && s'.waiting[tid] == s.waiting[tid]
      ensures ReadEarlier(s'.tables, s'.waiting[tid].rid, s'.waiting[tid].req)
    {
      ReadsSurvive(s.tables, s'.tables, s.waiting[tid].rid, s.waiting[tid].req);
    }
  }

  lemma FreshRead(v: Tables, rid: nat)
    requires rid < |v.requests| && v.requests[rid].status == Approved
    ensures ReadEarlier(v, rid, v.requests[rid])
  {
  }

  /** So from the seeded rows, under every interleaving, each request backs at
      most one mint, for at most its requested amount, and is executed exactly
      when that mint exists. */
  lemma ExactlyOnceInterleaved(v: Tables, steps: seq<Step>, calls: seq<Call>, s: System, rid: nat)
    requires Reachable(v) && Trace(v, steps, calls, s) && rid < |s.tables.requests|
    ensures var mints := s.tables.ledger.mints;
      && (s.tables.requests[rid].status == Executed
          <==> exists i | 0 <= i < |mints| :: mints[i].leg.requestId == Some(rid))
      && (forall i, j | 0 <= i < |mints| && 0 <= j < |mints|
            && mints[i].leg.requestId == Some(rid) == mints[j].leg.requestId :: i == j)
      && (forall i | 0 <= i < |mints| && mints[i].leg.requestId == Some(rid) ::
            0 < mints[i].leg.amount <= s.tables.requests[rid].requestedAmount)
  {
    hide Reachable, Inv, Trace;
    ReachableInv(v);
    InterleavingIsSerial(v, steps, calls, s);
    ReachableOnward(v, calls);
    ExecutedIffMinted(s.tables, rid);
  }
}
