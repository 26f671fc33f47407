/** Second approval, attachment and rejection read their request without a lock
    and update it without looking again. Split at that read, and with advance
    execution split at its lock as well, they keep "executed exactly when minted"
    just as long as no late approval or rejection hits an executed request. */
module LateDecisions {
  import opened Wrappers
  import opened Types
  import opened Calc
  import opened LedgerSteps
  import opened LedgerInvariant
  import opened AdvanceRules
  import opened Invariant
  import opened History
  import opened ServiceInvariants
  import opened Runs
  import opened GovernanceTheorems

  datatype Decision =
    | SecondApproval(approverId: string)
    | Attachment(proposalId: nat)
    | Rejection

  /** The row as read is one the decision goes on to update. */
  predicate Decides(req: AdvanceRequest, d: Decision) {
    match d
    case SecondApproval(approverId) => req.status == PendingSecondApproval && approverId != req.requestedBy
    case Attachment(_) => req.status == PendingProposal && req.proposalId.None?
    case Rejection => req.status == PendingSecondApproval || req.status == PendingProposal
  }

  /** The columns the update writes, whatever the row has become. */
  function Decided(row: AdvanceRequest, d: Decision): AdvanceRequest {
    match d
    case SecondApproval(approverId) => row.(status := Approved, secondApprovedBy := Some(approverId))
    case Attachment(proposalId) => row.(proposalId := Some(proposalId))
    case Rejection => row.(status := Rejected)
  }

  function WriteRow(v: Tables, rid: nat, row: AdvanceRequest): Tables
    requires rid < |v.requests|
  {
    v.(requests := v.requests[rid := row])
  }

  function CallOf(rid: nat, d: Decision): Call {
    match d
    case SecondApproval(approverId) => SecondApproveCall(rid, approverId)
    case Attachment(proposalId) => AttachCall(rid, proposalId)
    case Rejection => RejectCall(rid)
  }

  /** The whole call is the read and, at once, the write. */
  lemma ReadThenWriteIsTheCall(v: Tables, rid: nat, d: Decision)
    ensures Apply(v, CallOf(rid, d))
      == if rid < |v.requests| && Decides(v.requests[rid], d) then WriteRow(v, rid, Decided(v.requests[rid], d)) else v
  {
  }

  // ---- Interleaved steps ----

  /** Executions that wait for their epoch lock, with the row they read, and
      decisions that have read their row and not yet written. */
  datatype System = System(
    tables: Tables,
    executing: map<nat, (nat, AdvanceRequest)>,
    deciding: map<nat, (nat, Decision)>)

  datatype Step =
    | ReadToExecute(tid: nat, rid: nat)
    | LockAndRun(tid: nat)
    | ReadToDecide(tid: nat, rid: nat, decision: Decision)
    | WriteDecision(tid: nat)
    | Whole(call: Call)

  /** A step that is not possible does nothing. */
  ghost function Next(s: System, step: Step): System {
    match step
    case ReadToExecute(tid, rid) =>
      if rid < |s.tables.requests| && s.tables.requests[rid].status == Approved
      then s.(executing := s.executing[tid := (rid, s.tables.requests[rid])]) else s
    case LockAndRun(tid) =>
      if tid in s.executing
      then s.(tables := After(s.tables, ExecuteLocked(s.tables, s.executing[tid].0, s.executing[tid].1)),
              executing := s.executing - {tid})
      else s
    case ReadToDecide(tid, rid, d) =>
      if rid < |s.tables.requests| && Decides(s.tables.requests[rid], d)
      then s.(deciding := s.deciding[tid := (rid, d)]) else s
    case WriteDecision(tid) =>
      if tid in s.deciding && s.deciding[tid].0 < |s.tables.requests|
      then
        var (rid, d) := s.deciding[tid];
        s.(tables := WriteRow(s.tables, rid, Decided(s.tables.requests[rid], d)), deciding := s.deciding - {tid})
      else s
    case Whole(call) => s.(tables := Apply(s.tables, call))
  }

  ghost function Interleave(v: Tables, steps: seq<Step>): System {
    if steps == [] then System(v, map[], map[])
    else Next(Interleave(v, steps[..|steps| - 1]), steps[|steps| - 1])
  }

  function Wholes(calls: seq<Call>): (steps: seq<Step>)
    ensures |steps| == |calls| && forall i | 0 <= i < |calls| :: steps[i] == Whole(calls[i])
  {
    seq(|calls|, i requires 0 <= i < |calls| => Whole(calls[i]))
  }

  /** Whole calls alone are a run; what waits goes on waiting. */
  lemma {:induction false} WholeCalls(v: Tables, before: seq<Step>, calls: seq<Call>)
    ensures var s, s' := Interleave(v, before), Interleave(v, before + Wholes(calls));
      s' == s.(tables := Run(s.tables, calls))
  {
    hide Apply;
    if calls == [] {
      assert before + Wholes(calls) == before;
    } else {
      var k := |calls| - 1;
      WholeCalls(v, before, calls[..k]);
      assert Wholes(calls)[..k] == Wholes(calls[..k]);
      var steps := before + Wholes(calls);
      assert steps[..|steps| - 1] == before + Wholes(calls[..k]);
    }
  }

  /** The guard the update lacks: the row is not executed by now. Attaching a
      proposal does not touch the status. */
  ghost predicate Timely(s: System, step: Step) {
    step.WriteDecision? && step.tid in s.deciding && s.deciding[step.tid].0 < |s.tables.requests|
    && !s.deciding[step.tid].1.Attachment?
    ==> s.tables.requests[s.deciding[step.tid].0].status != Executed
  }

  // ---- What waiting transactions may rely on ----

  /** An execution read an approved row; since then the row was at most decided
      on or executed. */
  ghost predicate ReadApproved(v: Tables, rid: nat, req: AdvanceRequest) {
    && rid < |v.requests| && req.status == Approved && RequestOk(req, rid, v.proposals)
    && SameAsk(req, v.requests[rid])
    && v.requests[rid].status in {Approved, Rejected, Executed}
    && (req.secondApprovedBy.Some? ==> v.requests[rid].secondApprovedBy.Some?)
  }

  ghost predicate SameAsk(a: AdvanceRequest, b: AdvanceRequest) {
    && b.epochId == a.epochId && b.member == a.member && b.requestedAmount == a.requestedAmount
    && b.relatedParty == a.relatedParty && b.requestedBy == a.requestedBy && b.contributionIds == a.contributionIds
  }

  /** The route the decision belongs to is still the row's. */
  ghost predicate OnRoute(row: AdvanceRequest, d: Decision) {
    match d
    case SecondApproval(approverId) =>
      && approverId != row.requestedBy && row.proposalId.None? && !row.relatedParty
      && row.status != PendingProposal
    case Attachment(_) => row.status != PendingSecondApproval && row.secondApprovedBy.None?
    case Rejection => true
  }

  /** No request has a second approval and an attachment under way at once. */
  ghost predicate OneRoute(deciding: map<nat, (nat, Decision)>) {
    forall a, b | a in deciding && b in deciding && deciding[a].0 == deciding[b].0 ::
      !(deciding[a].1.SecondApproval? && deciding[b].1.Attachment?)
  }

  ghost predicate ExecutionsOk(v: Tables, executing: map<nat, (nat, AdvanceRequest)>) {
    forall tid | tid in executing :: ReadApproved(v, executing[tid].0, executing[tid].1)
  }

  ghost predicate DecisionsOk(v: Tables, deciding: map<nat, (nat, Decision)>) {
    forall tid | tid in deciding ::
      deciding[tid].0 < |v.requests| && OnRoute(v.requests[deciding[tid].0], deciding[tid].1)
  }

  ghost predicate SystemOk(s: System) {
    && Inv(s.tables) && ExecutionsOk(s.tables, s.executing) && DecisionsOk(s.tables, s.deciding)
    && OneRoute(s.deciding)
  }

  // ---- One request row rewritten ----

  /** A rewritten row that is sound, executed as before for the same amount,
      keeps the invariant. */
  lemma RowKeepsInv(v: Tables, rid: nat, row: AdvanceRequest)
    requires Inv(v) && rid < |v.requests| && RequestOk(row, rid, v.proposals)
    requires row.status == Executed <==> v.requests[rid].status == Executed
    requires row.approvedAmount == v.requests[rid].approvedAmount && row.relatedParty == v.requests[rid].relatedParty
    ensures Inv(WriteRow(v, rid, row))
  {
    hide LedgerInv, BoardOk, VersionsOk, SingleUseOk, PassedAdvance, PolicyOk;
    var requests' := WriteRow(v, rid, row).requests;
    forall k: nat | k < |requests'|
      ensures RequestOk(requests'[k], k, v.proposals)
    {
      assert RequestOk(v.requests[k], k, v.proposals);
    }
    forall i: nat | i < |v.ledger.mints| && v.ledger.mints[i].leg.source == NextEpochAdvance
      ensures AdvanceEventOk(v.ledger.mints, i, v.ledger.epochs, requests', v.proposals)
    {
      assert AdvanceEventOk(v.ledger.mints, i, v.ledger.epochs, v.requests, v.proposals);
    }
  }

  lemma RowSound(v: Tables, rid: nat)
    requires Inv(v) && rid < |v.requests|
    ensures RequestOk(v.requests[rid], rid, v.proposals)
  {
    hide LedgerInv, BoardOk, VersionsOk, PolicyOk, AdvancesOk, SingleUseOk, RequestOk;
  }

  /** A timely late decision keeps the invariant. */
  lemma DecisionKeepsInv(v: Tables, rid: nat, d: Decision)
    requires Inv(v) && rid < |v.requests| && OnRoute(v.requests[rid], d)
    requires d.Attachment? || v.requests[rid].status != Executed
    ensures Inv(WriteRow(v, rid, Decided(v.requests[rid], d)))
  {
    hide Inv, PassedAdvance;
    RowSound(v, rid);
    RowKeepsInv(v, rid, Decided(v.requests[rid], d));
  }

  // ---- A stale execution ----

  lemma MintedMeansExecuted(v: Tables, rid: nat)
    requires Inv(v) && rid < |v.requests| && MintOfRequest(v.ledger.mints, rid).None?
    ensures v.requests[rid].status != Executed
  {
    hide LedgerInv, BoardOk, VersionsOk, PolicyOk, RequestsOk, SingleUseOk, AdvanceEventOk;
  }

  /** The body under the lock reads the request table nowhere. */
  lemma LockedIgnoresRow(v: Tables, rid: nat, req: AdvanceRequest, row: AdvanceRequest)
    requires rid < |v.requests|
    ensures ExecuteLocked(WriteRow(v, rid, row), rid, req)
      == match ExecuteLocked(v, rid, req)
         case Failure(e) => Failure(e)
         case Success((after, outcome)) =>
           Success((after.(requests := if MintOfRequest(v.ledger.mints, rid).Some? then WriteRow(v, rid, row).requests
                                       else MarkExecuted(WriteRow(v, rid, row).requests, rid, AmountOf(req))), outcome))
  {
    hide PostMint, CumulativeAdvanceRateBps, MintOfRequest;
  }

  /** With a row decided on since the read, execution still mints once and marks
      the row executed. */
  lemma StaleExecutionKeepsInv(v: Tables, rid: nat, req: AdvanceRequest)
    requires Inv(v) && ReadApproved(v, rid, req)
    ensures var v' := After(v, ExecuteLocked(v, rid, req));
      && Inv(v') && v'.proposals == v.proposals
      && |v'.requests| == |v.requests|
      && (forall k | 0 <= k < |v.requests| && k != rid :: v'.requests[k] == v.requests[k])
      && (v'.requests[rid] == v.requests[rid]
          || v'.requests[rid] == v.requests[rid].(status := Executed, approvedAmount := Some(AmountOf(req))))
  {
    hide Inv, ExecuteLocked, PassedAdvance, Good;
    if ExecuteLocked(v, rid, req).Success? {
      ReplayOrPost(v, rid, req);
    }
    if ExecuteLocked(v, rid, req).Success? && MintOfRequest(v.ledger.mints, rid).None? {
      MintedMeansExecuted(v, rid);
      RowSound(v, rid);
      var v0 := WriteRow(v, rid, req);
      RowKeepsInv(v, rid, req);
      LockedIgnoresRow(v, rid, req, req);
      ExecuteLockedKeepsInv(v0, rid, req);
      var v0' := ExecuteLocked(v0, rid, req).value.0;
      assert Inv(v0') by { GoodIsInv(v0, v0'); }
      RowSound(v0', rid);
      var row := v.requests[rid].(status := Executed, approvedAmount := Some(AmountOf(req)));
      assert v0'.proposals == v.proposals;
      RowKeepsInv(v0', rid, row);
      assert WriteRow(v0', rid, row) == ExecuteLocked(v, rid, req).value.0;
    }
  }

  lemma GoodIsInv(v: Tables, v': Tables)
    requires Good(v, v')
    ensures Inv(v')
  {
    hide Inv;
  }

  lemma ReplayOrPost(v: Tables, rid: nat, req: AdvanceRequest)
    requires rid < |v.requests| && ExecuteLocked(v, rid, req).Success?
    ensures var v' := ExecuteLocked(v, rid, req).value.0;
      if MintOfRequest(v.ledger.mints, rid).Some? then v' == v
      else
        v' == v.(ledger := v'.ledger, requests := MarkExecuted(v.requests, rid, AmountOf(req)))
  {
    hide PostMint, CumulativeAdvanceRateBps, MintOfRequest;
  }

  // ---- What other transactions' writes leave to the waiting ones ----

  /** A row that moved on as a decision, an execution or a whole call moves it. */
  ghost predicate MovedOn(a: AdvanceRequest, b: AdvanceRequest) {
    && SameAsk(a, b)
    && (a.status in {Approved, Rejected, Executed} ==> b.status in {Approved, Rejected, Executed})
    && (a.secondApprovedBy.Some? ==> b.secondApprovedBy.Some?)
  }

  lemma ExecutionsStay(v: Tables, v': Tables, executing: map<nat, (nat, AdvanceRequest)>)
    requires ExecutionsOk(v, executing) && |v.requests| <= |v'.requests|
    requires forall k: nat | k < |v.requests| :: MovedOn(v.requests[k], v'.requests[k])
    requires KeepsRecorded(v.proposals, v'.proposals)
    ensures ExecutionsOk(v', executing)
  {
    hide PassedAdvance, KeepsRecorded;
    forall tid | tid in executing
      ensures ReadApproved(v', executing[tid].0, executing[tid].1)
    {
      AuthorityStays(v.proposals, v'.proposals, executing[tid].0);
      assert MovedOn(v.requests[executing[tid].0], v'.requests[executing[tid].0]);
    }
  }

  lemma KeptMovesOn(a: AdvanceRequest, b: AdvanceRequest)
    requires RequestKept(a, b)
    ensures MovedOn(a, b)
    ensures forall d: Decision :: OnRoute(a, d) ==> OnRoute(b, d)
  {
  }

  lemma ExtendsForWaiting(v: Tables, v': Tables)
    requires Extends(v, v')
    ensures |v.requests| <= |v'.requests| && KeepsRecorded(v.proposals, v'.proposals)
    ensures forall k: nat | k < |v.requests| :: RequestKept(v.requests[k], v'.requests[k])
  {
    hide MintsExtend, EpochsExtend, VotesExtend, SnapshotsExtend, BallotsFinal, RequestKept;
    ProposalsExtendFacts(v.proposals, v'.proposals);
  }

  lemma WholeKeeps(s: System, call: Call)
    requires SystemOk(s)
    ensures SystemOk(Next(s, Whole(call)))
  {
    hide Inv, Extends, Apply, RequestKept, MovedOn, OnRoute, ReadApproved;
    var v, v' := s.tables, Apply(s.tables, call);
    CallKeepsInv(v, call);
    ExtendsForWaiting(v, v');
    forall k: nat | k < |v.requests|
      ensures MovedOn(v.requests[k], v'.requests[k])
      ensures forall d: Decision :: OnRoute(v.requests[k], d) ==> OnRoute(v'.requests[k], d)
    {
      KeptMovesOn(v.requests[k], v'.requests[k]);
    }
    ExecutionsStay(v, v', s.executing);
  }

  lemma RunKeeps(s: System, tid: nat)
    requires SystemOk(s)
    ensures SystemOk(Next(s, LockAndRun(tid)))
  {
    hide Inv, ExecuteLocked, RequestOk;
    if tid in s.executing {
      var rid, req := s.executing[tid].0, s.executing[tid].1;
      var v, v' := s.tables, After(s.tables, ExecuteLocked(s.tables, rid, req));
      StaleExecutionKeepsInv(v, rid, req);
      ExecutionsStay(v, v', s.executing);
    }
  }

  lemma WriteKeeps(s: System, tid: nat)
    requires SystemOk(s) && Timely(s, WriteDecision(tid))
    ensures SystemOk(Next(s, WriteDecision(tid)))
  {
    hide Inv, RequestOk;
    if tid in s.deciding {
      var rid, d := s.deciding[tid].0, s.deciding[tid].1;
      var v, v' := s.tables, WriteRow(s.tables, rid, Decided(s.tables.requests[rid], d));
      DecisionKeepsInv(v, rid, d);
      ExecutionsStay(v, v', s.executing);
      forall other | other in s.deciding && other != tid
        ensures OnRoute(v'.requests[s.deciding[other].0], s.deciding[other].1)
      {
        assert OnRoute(v.requests[s.deciding[other].0], s.deciding[other].1);
      }
    }
  }

  lemma ReadsKeep(s: System, step: Step)
    requires SystemOk(s) && (step.ReadToExecute? || step.ReadToDecide?)
    ensures SystemOk(Next(s, step))
  {
    hide Inv, PassedAdvance;
    if step.rid < |s.tables.requests| {
      RowSound(s.tables, step.rid);
    }
  }

  lemma StepKeeps(s: System, step: Step)
    requires SystemOk(s) && Timely(s, step)
    ensures SystemOk(Next(s, step))
  {
    hide SystemOk, Next, Timely;
    match step {
      case Whole(call) => WholeKeeps(s, call);
      case LockAndRun(tid) => RunKeeps(s, tid);
      case WriteDecision(tid) => WriteKeeps(s, tid);
      case _ => ReadsKeep(s, step);
    }
  }

  // ---- Exactly when it survives ----

  ghost predicate Once(v: Tables) {
    forall rid: nat | rid < |v.requests| :: OnceFor(v, rid)
  }

  lemma SystemOnce(s: System)
    requires SystemOk(s)
    ensures Once(s.tables)
  {
    hide Inv, OnceFor;
    forall rid: nat | rid < |s.tables.requests|
      ensures OnceFor(s.tables, rid)
    {
      OnceOfInv(s.tables, rid);
    }
  }

  /** An untimely write leaves a request that backs a mint and is not executed. */
  lemma UntimelyBreaks(s: System, step: Step)
    requires SystemOk(s) && !Timely(s, step)
    ensures !Once(Next(s, step).tables)
  {
    hide Inv;
    var rid := s.deciding[step.tid].0;
    OnceOfInv(s.tables, rid);
    assert !OnceFor(Next(s, step).tables, rid);
  }

  /** All writes up to step n were timely. */
  ghost predicate AllTimely(v: Tables, steps: seq<Step>) {
    forall k: nat | k < |steps| :: Timely(Interleave(v, steps[..k]), steps[k])
  }

  lemma {:induction false} TimelyRun(v: Tables, steps: seq<Step>)
    requires Inv(v) && AllTimely(v, steps)
    ensures SystemOk(Interleave(v, steps))
  {
    hide Inv, Timely, Next, SystemOk;
    if steps == [] {
      NobodyWaits(v);
    } else {
      var init := steps[..|steps| - 1];
      forall k: nat | k < |init|
        ensures Timely(Interleave(v, init[..k]), init[k])
      {
        assert init[..k] == steps[..k];
      }
      TimelyRun(v, init);
      StepKeeps(Interleave(v, init), steps[|steps| - 1]);
    }
  }

  lemma NobodyWaits(v: Tables)
    requires Inv(v)
    ensures SystemOk(System(v, map[], map[]))
  {
    hide Inv;
  }

  /** In every state of the interleaving each request backs at most one mint and
      is executed exactly when it does. */
  ghost predicate AlwaysOnce(v: Tables, steps: seq<Step>) {
    forall k: nat | k <= |steps| :: Once(Interleave(v, steps[..k]).tables)
  }

  lemma {:induction false} OnceMeansTimely(v: Tables, steps: seq<Step>)
    requires Inv(v) && AlwaysOnce(v, steps)
    ensures AllTimely(v, steps)
  {
    hide Inv, Timely, Next, SystemOk, Once;
    if steps != [] {
      var init := steps[..|steps| - 1];
      var last := steps[|steps| - 1];
      forall k: nat | k <= |init|
        ensures Once(Interleave(v, init[..k]).tables)
      {
        assert init[..k] == steps[..k];
      }
      OnceMeansTimely(v, init);
      TimelyRun(v, init);
      assert steps[..|steps|] == steps;
      if !Timely(Interleave(v, init), last) {
        UntimelyBreaks(Interleave(v, init), last);
      }
      forall k: nat | k < |steps|
        ensures Timely(Interleave(v, steps[..k]), steps[k])
      {
        if k < |init| {
          assert init[..k] == steps[..k] && Timely(Interleave(v, init[..k]), init[k]);
        }
      }
    }
  }

  /** Under any interleaving of split decisions, split executions and whole other
      calls, "executed exactly when minted, once" holds throughout if and only if
      no late approval or rejection is written to an executed request. */
  lemma OnceIffTimely(v: Tables, steps: seq<Step>)
    requires Reachable(v)
    ensures AlwaysOnce(v, steps) <==> AllTimely(v, steps)
  {
    hide Reachable, Inv, Timely, SystemOk, Once, Interleave;
    ReachableInv(v);
    if AlwaysOnce(v, steps) {
      OnceMeansTimely(v, steps);
    } else if AllTimely(v, steps) {
      forall k: nat | k <= |steps|
        ensures Once(Interleave(v, steps[..k]).tables)
      {
        TimelyPrefix(v, steps, k);
        TimelyRun(v, steps[..k]);
        SystemOnce(Interleave(v, steps[..k]));
      }
    }
  }

  lemma TimelyPrefix(v: Tables, steps: seq<Step>, k: nat)
    requires AllTimely(v, steps) && k <= |steps|
    ensures AllTimely(v, steps[..k])
  {
    hide Timely, Interleave;
    forall j: nat | j < k
      ensures Timely(Interleave(v, steps[..k][..j]), steps[..k][j])
    {
      assert steps[..k][..j] == steps[..j];
    }
  }
}
