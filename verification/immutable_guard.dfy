/** The write guard of the append-only tables: what it lets through, and what
    a table keeps when every write to it passed the guard. */
module ImmutableGuard {
  import opened Wrappers

  const LEDGER_MODELS := {
    "TokenMintEvent", "TokenReversalEvent", "TokenPolicyVersion", "Vote", "ProposalMemberSnapshot"}

  const UPDATE_WHITELIST: map<string, set<string>> := map[
    "TokenMintEvent" := {"governanceStatus", "publicRecordId"},
    "TokenReversalEvent" := {"publicRecordId"},
    "TokenPolicyVersion" := {"publicRecordId"},
    "Vote" := {},
    "ProposalMemberSnapshot" := {},
    "PublicRecord" := {
      "status", "txHash", "blockNumber", "blockHash", "assignedNonce", "submittedAt", "confirmedAt", "attemptEpoch",
      "supersededByRecordId", "lastError"}]

  const UPDATE_OPERATIONS := {"update", "updateMany", "upsert"}
  const DELETE_OPERATIONS := {"delete", "deleteMany"}

  /** fields holds the columns being written, None when the data is no record.
      The guard throws where this is false. */
  predicate Permits(model: string, operation: string, fields: Option<set<string>>) {
    if operation in DELETE_OPERATIONS then model !in LEDGER_MODELS
    else if operation !in UPDATE_OPERATIONS then true
    else if model !in UPDATE_WHITELIST then true
    else fields.None? || fields.value <= UPDATE_WHITELIST[model]
  }

  // ---- Tables under client operations ----

  type Row = map<string, string>
  type Table = map<nat, Row>

  /** The client operations that write, on the rows their filter selected:
      those the guard knows by name, and an update under any name, such as the
      client's updateManyAndReturn. */
  datatype Write =
    | Create(id: nat, row: Row)
    | Update(id: nat, data: Row)
    | UpdateMany(ids: set<nat>, data: Row)
    | Upsert(id: nat, create: Row, data: Row)
    | Delete(id: nat)
    | DeleteMany(ids: set<nat>)
    | UpdateAs(operation: string, ids: set<nat>, data: Row)

  function OperationOf(w: Write): string {
    match w
    case Create(_, _) => "create"
    case Update(_, _) => "update"
    case UpdateMany(_, _) => "updateMany"
    case Upsert(_, _, _) => "upsert"
    case Delete(_) => "delete"
    case DeleteMany(_) => "deleteMany"
    case UpdateAs(operation, _, _) => operation
  }

  /** What the guard is shown of the columns: for an upsert the update clause,
      for an operation it does not know nothing. */
  function FieldsOf(w: Write): Option<set<string>> {
    match w
    case Update(_, data) => Some(data.Keys)
    case UpdateMany(_, data) => Some(data.Keys)
    case Upsert(_, _, data) => Some(data.Keys)
    case UpdateAs(operation, _, data) => if operation in UPDATE_OPERATIONS then Some(data.Keys) else None
    case _ => None
  }

  /** A create on a taken id fails on the primary key; writes to missing rows
      change nothing. */
  function Execute(t: Table, w: Write): Table {
    match w
    case Create(id, row) => if id in t then t else t[id := row]
    case Update(id, data) => if id in t then t[id := t[id] + data] else t
    case UpdateMany(ids, data) => UpdateRows(t, ids, data)
    case UpdateAs(_, ids, data) => UpdateRows(t, ids, data)
    case Upsert(id, create, data) => if id in t then t[id := t[id] + data] else t[id := create]
    case Delete(id) => t - {id}
    case DeleteMany(ids) => t - ids
  }

  function UpdateRows(t: Table, ids: set<nat>, data: Row): Table {
    map id | id in t :: if id in ids then t[id] + data else t[id]
  }

  function Guarded(model: string, t: Table, w: Write): Table {
    if Permits(model, OperationOf(w), FieldsOf(w)) then Execute(t, w) else t
  }

  function GuardedRun(model: string, t: Table, writes: seq<Write>): Table {
    if writes == [] then t
    else Guarded(model, GuardedRun(model, t, writes[..|writes| - 1]), writes[|writes| - 1])
  }

  /** Every row is still there, each column outside the whitelist unchanged. */
  ghost predicate KeepsHistory(model: string, t: Table, t': Table)
    requires model in UPDATE_WHITELIST
  {
    forall id | id in t ::
      && id in t'
      && forall column | column in t[id] && column !in UPDATE_WHITELIST[model] ::
           column in t'[id] && t'[id][column] == t[id][column]
  }

  /** An update under a name the guard has in neither of its tables passes
      unread; this one writes nothing but whitelisted columns all the same. */
  predicate Covered(model: string, w: Write)
    requires model in UPDATE_WHITELIST
  {
    w.UpdateAs? ==>
      || w.operation in UPDATE_OPERATIONS || w.operation in DELETE_OPERATIONS
      || w.data.Keys <= UPDATE_WHITELIST[model]
  }

  lemma PermittedWriteKeepsHistory(model: string, t: Table, w: Write)
    requires model in LEDGER_MODELS && Covered(model, w)
    requires Permits(model, OperationOf(w), FieldsOf(w))
    ensures KeepsHistory(model, t, Execute(t, w))
  {
    assert OperationOf(w) !in DELETE_OPERATIONS;
    match w {
      case Create(_, _) =>
      case Update(_, data) => assert OperationOf(w) in UPDATE_OPERATIONS && data.Keys <= UPDATE_WHITELIST[model];
      case UpdateMany(_, data) => assert OperationOf(w) in UPDATE_OPERATIONS && data.Keys <= UPDATE_WHITELIST[model];
      case Upsert(_, _, data) => assert OperationOf(w) in UPDATE_OPERATIONS && data.Keys <= UPDATE_WHITELIST[model];
      case UpdateAs(_, _, data) => assert data.Keys <= UPDATE_WHITELIST[model];
      case _ =>
    }
  }

  lemma KeepsHistoryTransitive(model: string, a: Table, b: Table, c: Table)
    requires model in UPDATE_WHITELIST && KeepsHistory(model, a, b) && KeepsHistory(model, b, c)
    ensures KeepsHistory(model, a, c)
  {
    forall id | id in a
      ensures id in c
      ensures forall column | column in a[id] && column !in UPDATE_WHITELIST[model] ::
        column in c[id] && c[id][column] == a[id][column]
    {
      assert id in b && id in c;
    }
  }

  /** Whatever sequence of covered writes is attempted on a ledger table through
      the guard, its history stays. */
  lemma {:induction false} GuardedTableKeepsHistory(model: string, t: Table, writes: seq<Write>)
    requires model in LEDGER_MODELS && forall w <- writes :: Covered(model, w)
    ensures KeepsHistory(model, t, GuardedRun(model, t, writes))
  {
    if writes != [] {
      var before := GuardedRun(model, t, writes[..|writes| - 1]);
      var last := writes[|writes| - 1];
      GuardedTableKeepsHistory(model, t, writes[..|writes| - 1]);
      if Permits(model, OperationOf(last), FieldsOf(last)) {
        PermittedWriteKeepsHistory(model, before, last);
        KeepsHistoryTransitive(model, t, before, Execute(before, last));
      }
    }
  }

  /** The rows the write selects. */
  function Touched(w: Write): set<nat> {
    match w
    case Create(id, _) => {id}
    case Update(id, _) => {id}
    case UpdateMany(ids, _) => ids
    case Upsert(id, _, _) => {id}
    case Delete(id) => {id}
    case DeleteMany(ids) => ids
    case UpdateAs(_, ids, _) => ids
  }

  /** The guard protects a ledger table against a write that selects a row
      exactly when the write is covered: its operation is in the guard's tables,
      or it writes whitelisted columns only. */
  lemma ProtectsIffCovered(model: string, w: Write)
    requires model in LEDGER_MODELS && Touched(w) != {}
    ensures (forall t: Table :: KeepsHistory(model, t, Guarded(model, t, w))) <==> Covered(model, w)
  {
    if Covered(model, w) {
      forall t: Table
        ensures KeepsHistory(model, t, Guarded(model, t, w))
      {
        if Permits(model, OperationOf(w), FieldsOf(w)) {
          PermittedWriteKeepsHistory(model, t, w);
        }
      }
    } else {
      var id :| id in Touched(w);
      var t := ColumnLost(model, w, id);
      assert Guarded(model, t, w) == Execute(t, w);
    }
  }

  /** A mint's amount rewritten under a name the guard does not know. */
  lemma UnknownNameRewritesHistory()
    ensures var w := UpdateAs("updateManyAndReturn", {0}, map["amount" := "2"]);
      var t: Table := map[0 := map["amount" := "1"]];
      && Permits("TokenMintEvent", OperationOf(w), FieldsOf(w))
      && Guarded("TokenMintEvent", t, w)[0]["amount"] == "2"
      && !KeepsHistory("TokenMintEvent", t, Guarded("TokenMintEvent", t, w))
  {
    var w := UpdateAs("updateManyAndReturn", {0}, map["amount" := "2"]);
    var t: Table := map[0 := map["amount" := "1"]];
    assert "updateManyAndReturn" !in UPDATE_OPERATIONS && "updateManyAndReturn" !in DELETE_OPERATIONS;
    assert Guarded("TokenMintEvent", t, w)[0] == map["amount" := "2"];
    assert "amount" in t[0] && "amount" !in UPDATE_WHITELIST["TokenMintEvent"];
  }

  /** On the operations it knows the guard is exact: among the writes that
      select a row, it refuses just those that destroy history on some table. */
  lemma GuardIsExact(model: string, w: Write)
    requires model in LEDGER_MODELS && Touched(w) != {} && !w.UpdateAs?
    ensures Permits(model, OperationOf(w), FieldsOf(w))
      <==> forall t: Table :: KeepsHistory(model, t, Execute(t, w))
  {
    if Permits(model, OperationOf(w), FieldsOf(w)) {
      forall t: Table
        ensures KeepsHistory(model, t, Execute(t, w))
      {
        PermittedWriteKeepsHistory(model, t, w);
      }
    } else {
      var id :| id in Touched(w);
      var t := HistoryLost(model, w, id);
    }
  }

  /** A table on which a refused write would destroy history. */
  lemma HistoryLost(model: string, w: Write, id: nat) returns (t: Table)
    requires model in LEDGER_MODELS && id in Touched(w) && !w.UpdateAs?
    requires !Permits(model, OperationOf(w), FieldsOf(w))
    ensures !KeepsHistory(model, t, Execute(t, w))
  {
    if w.Delete? || w.DeleteMany? {
      t := map[id := map[]];
      assert id in t && id !in Execute(t, w);
    } else {
      t := ColumnLost(model, w, id);
    }
  }

  /** A table on which an update beyond the whitelist overwrites a column. */
  lemma ColumnLost(model: string, w: Write, id: nat) returns (t: Table)
    requires model in LEDGER_MODELS && id in Touched(w)
    requires w.Update? || w.UpdateMany? || w.Upsert? || w.UpdateAs?
    requires !(w.data.Keys <= UPDATE_WHITELIST[model])
    ensures !KeepsHistory(model, t, Execute(t, w))
  {
    var column :| column in w.data.Keys && column !in UPDATE_WHITELIST[model];
    t := map[id := map[column := w.data[column] + "*"]];
    assert column in t[id] && Execute(t, w)[id][column] == w.data[column] != t[id][column];
  }
}
