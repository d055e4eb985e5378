/** What every reachable world satisfies, and that every step keeps it. */
module Invariants {
  import opened Models
  import opened Requests
  import opened Ledger
  import opened History
  import opened Protocol

  // ---------- One request ----------

  /** The rows a request has read are locked by it and have not changed since. */
  ghost predicate RowsHeld(w: World, r: Rid)
    requires r in w.procs
  {
    var rows, order := Rows(w.procs[r].phase), LockOrder(w.procs[r].call.body);
    && |rows| <= |order|
    && forall i | 0 <= i < |rows| ::
         && order[i] in w.rowLocks && w.rowLocks[order[i]] == r
         && order[i] in w.db.accounts && w.db.accounts[order[i]] == rows[i]
  }

  ghost predicate FundsRead(call: Call, rows: seq<Account>) {
    call.body.Transfer? && |rows| == 2 && RowOf(call.body, rows, call.body.source).balance >= call.body.amount
  }

  predicate DrawnBy(w: World, id: Uuid, r: Rid) {
    id in w.issued && w.issued[id] == r
  }

  ghost predicate PhaseOk(w: World, r: Rid)
    requires r in w.procs
  {
    var p := w.procs[r];
    match p.phase
    case Received => true
    case Holding(_, _) => true
    case Funded(_, rows) => FundsRead(p.call, rows)
    case Flushed(f, rows) =>
      && FreshFor(w.db, f) && DrawnBy(w, f.resource, r) && DrawnBy(w, f.debit, r) && DrawnBy(w, f.credit, r)
      && |rows| == |LockOrder(p.call.body)|
      && (p.call.body.Transfer? ==>
            && FundsRead(p.call, rows)
            && RowOf(p.call.body, rows, p.call.body.destination).balance + p.call.body.amount <= MAX_MONEY)
    case RaceLost => p.call.key in w.db.keys
    case _ => true
  }

  /** The outcome a request carries is the one recorded for it. */
  ghost predicate OutcomeOk(w: World, r: Rid)
    requires r in w.procs
  {
    var p := w.procs[r];
    && (p.decided.Some? ==>
          && p.decided.value < |w.log|
          && w.log[p.decided.value].rid == r && w.log[p.decided.value].call == p.call)
    && match p.phase
       case Committed(response) => p.decided.Some? && w.log[p.decided.value].answer == Created(response)
       case Finished(LockTimeout) => p.decided.None?
       case Finished(InternalError) => p.decided.Some? ==> w.log[p.decided.value].answer.Created?
       case Dead => p.decided.Some? ==> w.log[p.decided.value].answer.Created?
       case Finished(answer) => p.decided.Some? && w.log[p.decided.value].answer == answer
       case _ => p.decided.None?
  }

  ghost predicate ProcOk(w: World, r: Rid)
    requires r in w.procs
  {
    var p := w.procs[r];
    && ValidBody(p.call.body)
    && (SameAccount(p.call.body) ==> p.phase.Received? || Over(p.phase))
    && (InTx(p.phase) ==> p.call.key in w.claims && w.claims[p.call.key] == r)
    && RowsHeld(w, r)
    && PhaseOk(w, r)
    && OutcomeOk(w, r)
  }

  // ---------- The shared tables ----------

  predicate Holds(p: Proc, id: Uuid) {
    var rows, order := Rows(p.phase), LockOrder(p.call.body);
    || (|rows| >= 1 && |order| >= 1 && order[0] == id)
    || (|rows| >= 2 && |order| >= 2 && order[1] == id)
  }

  /** Every claim belongs to a live transaction, and its key is not committed. */
  ghost predicate ClaimsOk(w: World) {
    forall k | k in w.claims ::
      && k !in w.db.keys
      && w.claims[k] in w.procs
      && InTx(w.procs[w.claims[k]].phase) && w.procs[w.claims[k]].call.key == k
  }

  ghost predicate LocksOk(w: World) {
    forall id | id in w.rowLocks :: w.rowLocks[id] in w.procs && Holds(w.procs[w.rowLocks[id]], id)
  }

  ghost predicate TablesOk(w: World) {
    ClaimsOk(w) && LocksOk(w) && IdsIn(w.db, w.issued.Keys)
  }

  /** The committed database is the one the log leads to, one request at a time, and each entry of
      the log belongs to the request that made it. */
  ghost predicate LogOk(start: Db, w: World) {
    && LedgerOk(start) && Serial(start, w.log) && State(start, w.log) == w.db
    && forall i | 0 <= i < |w.log| :: w.log[i].rid in w.procs && w.procs[w.log[i].rid].decided == Some(i)
  }

  ghost predicate ProcsOk(w: World) {
    forall r {:trigger ProcOk(w, r)} | r in w.procs :: ProcOk(w, r)
  }

  ghost predicate Inv(start: Db, w: World) {
    ProcsOk(w) && TablesOk(w) && LogOk(start, w)
  }

  lemma InitialInv(w: World)
    requires Initial(w)
    ensures Inv(w.db, w)
  {
  }

  // ---------- Preservation ----------

  /** What another request's step leaves alone. */
  ghost predicate Undisturbed(w: World, w': World, s: Rid)
    requires s in w.procs
  {
    var p, order := w.procs[s], LockOrder(w.procs[s].call.body);
    && s in w'.procs && w'.procs[s] == p
    && (p.call.key in w.claims && w.claims[p.call.key] == s ==> p.call.key in w'.claims && w'.claims[p.call.key] == s)
    && (forall id | id in w.rowLocks && w.rowLocks[id] == s && id in w.db.accounts ::
          && id in w'.rowLocks && w'.rowLocks[id] == s
          && id in w'.db.accounts && w'.db.accounts[id] == w.db.accounts[id])
    && w.db.keys.Keys <= w'.db.keys.Keys
    && (forall id | DrawnBy(w, id, s) :: DrawnBy(w', id, s))
    && w.log <= w'.log
    && (p.phase.Flushed? && FreshFor(w.db, p.phase.drawn) ==> FreshFor(w'.db, p.phase.drawn))
  }

  lemma UndisturbedStaysOk(w: World, w': World, s: Rid)
    requires s in w.procs && ProcOk(w, s) && Undisturbed(w, w', s)
    ensures ProcOk(w', s)
  {
  }

  ghost predicate OthersUndisturbed(w: World, w': World, r: Rid) {
    forall s {:trigger Undisturbed(w, w', s)} | s in w.procs && s != r :: Undisturbed(w, w', s)
  }

  /** Every request keeps its invariant if the acting one does. */
  lemma OthersStayOk(w: World, w': World, r: Rid)
    requires ProcsOk(w) && w'.procs.Keys == w.procs.Keys + {r}
    requires OthersUndisturbed(w, w', r) && ProcOk(w', r)
    ensures ProcsOk(w')
  {
    forall s | s in w'.procs ensures ProcOk(w', s) {
      if s != r {
        UndisturbedStaysOk(w, w', s);
      }
    }
  }

  lemma SameLogOk(start: Db, w: World, w': World)
    requires LogOk(start, w) && w'.log == w.log && w'.db == w.db && w.procs.Keys <= w'.procs.Keys
    requires forall s | s in w.procs :: w'.procs[s].decided == w.procs[s].decided
    ensures LogOk(start, w')
  {
  }

  // A new request.

  lemma ArriveOthers(w: World, r: Rid, call: Call)
    requires r !in w.procs
    ensures OthersUndisturbed(w, Admit(w, r, call), r)
  {
  }

  lemma ArriveTables(w: World, r: Rid, call: Call)
    requires r !in w.procs && TablesOk(w)
    ensures TablesOk(Admit(w, r, call))
  {
  }

  lemma ArriveOwn(w: World, r: Rid, call: Call)
    requires Admitted(call)
    ensures ProcOk(Admit(w, r, call), r)
  {
    AdmittedIsValid(call);
  }

  lemma ArriveKeepsInv(start: Db, w: World, r: Rid, call: Call)
    requires Inv(start, w) && r !in w.procs && Admitted(call)
    ensures Inv(start, Admit(w, r, call))
  {
    ArriveOthers(w, r, call);
    ArriveOwn(w, r, call);
    OthersStayOk(w, Admit(w, r, call), r);
    ArriveTables(w, r, call);
    SameLogOk(start, w, Admit(w, r, call));
  }

  // Moving on without touching anything shared.

  lemma PutOthers(w: World, r: Rid, phase: Phase)
    requires r in w.procs
    ensures OthersUndisturbed(w, Put(w, r, phase), r)
  {
  }

  lemma PutTables(w: World, r: Rid, phase: Phase)
    requires r in w.procs && TablesOk(w)
    requires (InTx(phase) <==> InTx(w.procs[r].phase)) && Rows(phase) == Rows(w.procs[r].phase)
    ensures TablesOk(Put(w, r, phase))
  {
  }

  lemma PutKeepsInv(start: Db, w: World, r: Rid, phase: Phase)
    requires Inv(start, w) && r in w.procs
    requires (InTx(phase) <==> InTx(w.procs[r].phase)) && Rows(phase) == Rows(w.procs[r].phase)
    requires ProcOk(Put(w, r, phase), r)
    ensures Inv(start, Put(w, r, phase))
  {
    PutOthers(w, r, phase);
    OthersStayOk(w, Put(w, r, phase), r);
    PutTables(w, r, phase);
    SameLogOk(start, w, Put(w, r, phase));
  }

  // Taking the key.

  /** The key is neither claimed nor committed, and r is inserting it. */
  ghost predicate KeyFree(w: World, r: Rid) {
    && r in w.procs && w.procs[r].phase.Claiming?
    && w.procs[r].call.key !in w.claims && w.procs[r].call.key !in w.db.keys
  }

  lemma ClaimOthers(w: World, r: Rid, ts: int)
    requires KeyFree(w, r)
    ensures OthersUndisturbed(w, TakeClaim(w, r, ts), r)
  {
  }

  lemma ClaimTables(w: World, r: Rid, ts: int)
    requires KeyFree(w, r) && TablesOk(w)
    ensures TablesOk(TakeClaim(w, r, ts))
  {
    assert forall id | id in w.rowLocks :: w.rowLocks[id] != r;
  }

  lemma ClaimOwn(w: World, r: Rid, ts: int)
    requires KeyFree(w, r) && ProcOk(w, r)
    ensures ProcOk(TakeClaim(w, r, ts), r)
  {
  }

  lemma ClaimKeepsInv(start: Db, w: World, r: Rid, ts: int)
    requires Inv(start, w) && KeyFree(w, r)
    ensures Inv(start, TakeClaim(w, r, ts))
  {
    ClaimOthers(w, r, ts);
    ClaimOwn(w, r, ts);
    OthersStayOk(w, TakeClaim(w, r, ts), r);
    ClaimTables(w, r, ts);
    SameLogOk(start, w, TakeClaim(w, r, ts));
  }

  // Locking a row.

  /** id is the row r needs next, and it is free. */
  ghost predicate RowFree(w: World, r: Rid, rows: seq<Account>, id: Uuid) {
    && r in w.procs && w.procs[r].phase.Holding? && w.procs[r].phase.rows == rows
    && (var order := LockOrder(w.procs[r].call.body); |rows| < |order| && order[|rows|] == id)
    && id in w.db.accounts && id !in w.rowLocks
  }

  lemma LockRowOthers(w: World, r: Rid, ts: int, rows: seq<Account>, id: Uuid)
    requires RowFree(w, r, rows, id)
    ensures OthersUndisturbed(w, TakeRow(w, r, ts, rows, id), r)
  {
  }

  lemma LockRowTables(w: World, r: Rid, ts: int, rows: seq<Account>, id: Uuid)
    requires RowFree(w, r, rows, id) && TablesOk(w)
    ensures TablesOk(TakeRow(w, r, ts, rows, id))
  {
  }

  lemma LockRowOwn(w: World, r: Rid, ts: int, rows: seq<Account>, id: Uuid)
    requires RowFree(w, r, rows, id) && ProcOk(w, r)
    ensures ProcOk(TakeRow(w, r, ts, rows, id), r)
  {
  }

  lemma LockRowKeepsInv(start: Db, w: World, r: Rid, ts: int, rows: seq<Account>, id: Uuid)
    requires Inv(start, w) && RowFree(w, r, rows, id)
    ensures Inv(start, TakeRow(w, r, ts, rows, id))
  {
    LockRowOthers(w, r, ts, rows, id);
    LockRowOwn(w, r, ts, rows, id);
    OthersStayOk(w, TakeRow(w, r, ts, rows, id), r);
    LockRowTables(w, r, ts, rows, id);
    SameLogOk(start, w, TakeRow(w, r, ts, rows, id));
  }

  // The end of a transaction that wrote nothing.

  lemma AbandonOthers(w: World, r: Rid, phase: Phase)
    requires r in w.procs
    ensures OthersUndisturbed(w, Abandon(w, r, phase), r)
  {
  }

  lemma AbandonTables(w: World, r: Rid, phase: Phase)
    requires r in w.procs && TablesOk(w)
    ensures TablesOk(Abandon(w, r, phase))
  {
  }

  lemma AbandonKeepsInv(start: Db, w: World, r: Rid, phase: Phase)
    requires Inv(start, w) && r in w.procs && !InTx(phase)
    requires ProcOk(Abandon(w, r, phase), r)
    ensures Inv(start, Abandon(w, r, phase))
  {
    AbandonOthers(w, r, phase);
    OthersStayOk(w, Abandon(w, r, phase), r);
    AbandonTables(w, r, phase);
    SameLogOk(start, w, Abandon(w, r, phase));
  }

  // A decision that leaves the database as it is.

  /** Answers that do not come from the state of the ledger. */
  predicate Incidental(answer: Answer) {
    answer.LockTimeout? || answer.InternalError?
  }

  lemma RefuseOthers(w: World, r: Rid, answer: Answer)
    requires r in w.procs
    ensures OthersUndisturbed(w, Refuse(w, r, answer), r)
  {
  }

  lemma RefuseTables(w: World, r: Rid, answer: Answer)
    requires r in w.procs && TablesOk(w)
    ensures TablesOk(Refuse(w, r, answer))
  {
    AbandonTables(Decide(w, r, NOTHING_DRAWN, answer), r, Finished(answer));
  }

  lemma RefuseOwn(w: World, r: Rid, answer: Answer)
    requires r in w.procs && ProcOk(w, r) && !Incidental(answer)
    ensures ProcOk(Refuse(w, r, answer), r)
  {
    assert RowsHeld(Refuse(w, r, answer), r);
    assert OutcomeOk(Refuse(w, r, answer), r);
  }

  /** Recording the sequential ledger's answer, and its effect, keeps the log faithful. */
  lemma RecordedLogOk(start: Db, w: World, w': World, r: Rid, d: Decision)
    requires LogOk(start, w) && r in w.procs && w.procs[r].decided.None?
    requires d.rid == r && ValidBody(d.call.body)
    requires Apply(w.db, d.call, d.drawn) == Reply(w'.db, d.answer)
    requires d.answer.Created? ==> FreshFor(w.db, d.drawn)
    requires w'.log == w.log + [d] && w'.procs.Keys == w.procs.Keys
    requires forall s | s in w.procs :: w'.procs[s].decided == if s == r then Some(|w.log|) else w.procs[s].decided
    ensures LogOk(start, w')
  {
    hide Apply, LedgerOk, FreshFor;
    SerialAppend(start, w.log, d);
    forall i | 0 <= i < |w'.log| ensures w'.log[i].rid in w'.procs && w'.procs[w'.log[i].rid].decided == Some(i) {
      if i < |w.log| {
        assert w'.log[i] == w.log[i];
      }
    }
  }

  lemma RefuseLog(start: Db, w: World, r: Rid, answer: Answer)
    requires LogOk(start, w) && r in w.procs && w.procs[r].decided.None? && ValidBody(w.procs[r].call.body)
    requires answer == Apply(w.db, w.procs[r].call, NOTHING_DRAWN).answer && !answer.Created?
    ensures LogOk(start, Refuse(w, r, answer))
  {
    ApplyChangesNothingElse(w.db, w.procs[r].call, NOTHING_DRAWN);
    RecordedLogOk(start, w, Refuse(w, r, answer), r, Decision(r, w.procs[r].call, NOTHING_DRAWN, answer));
  }

  lemma RefuseKeepsInv(start: Db, w: World, r: Rid, answer: Answer)
    requires Inv(start, w) && r in w.procs && w.procs[r].decided.None? && !Incidental(answer)
    requires answer == Apply(w.db, w.procs[r].call, NOTHING_DRAWN).answer && !answer.Created?
    ensures Inv(start, Refuse(w, r, answer))
  {
    assert ProcOk(w, r);
    RefuseOthers(w, r, answer);
    RefuseOwn(w, r, answer);
    OthersStayOk(w, Refuse(w, r, answer), r);
    RefuseTables(w, r, answer);
    RefuseLog(start, w, r, answer);
  }

  // ---------- What a transaction's reads guarantee ----------

  lemma LedgerStaysOk(start: Db, w: World)
    requires LogOk(start, w)
    ensures LedgerOk(w.db)
  {
    SerialKeepsLedgerOk(start, w.log);
  }

  /** While r holds its claim and both row locks, the committed rows are the ones it read, and its
      key is not committed. */
  lemma LocksAreStable(w: World, r: Rid)
    requires r in w.procs && ProcOk(w, r) && ClaimsOk(w)
    requires InTx(w.procs[r].phase)
    ensures w.procs[r].call.key !in w.db.keys && !SameAccount(w.procs[r].call.body)
    ensures w.procs[r].call.body.Transfer? && |w.procs[r].phase.rows| == 2 ==>
              var Transfer(s, d, _) := w.procs[r].call.body;
              && s in w.db.accounts && w.db.accounts[s] == RowOf(w.procs[r].call.body, w.procs[r].phase.rows, s)
              && d in w.db.accounts && w.db.accounts[d] == RowOf(w.procs[r].call.body, w.procs[r].phase.rows, d)
  {
  }

  /** The values a funded transfer writes pass the column constraints, unless the credit overflows. */
  lemma FundedWrites(db: Db, call: Call, rows: seq<Account>, f: Fresh)
    requires InBounds(db) && ValidBody(call.body) && !SameAccount(call.body) && FundsRead(call, rows)
    requires call.body.source in db.accounts && call.body.destination in db.accounts
    requires db.accounts[call.body.source] == RowOf(call.body, rows, call.body.source)
    requires db.accounts[call.body.destination] == RowOf(call.body, rows, call.body.destination)
    ensures FitsColumns(WritesOf(call, rows, f))
       <==> db.accounts[call.body.destination].balance + call.body.amount <= MAX_MONEY
    ensures PassesChecks(db, WritesOf(call, rows, f))
  {
    var Transfer(s, d, amount) := call.body;
    var wr := WritesOf(call, rows, f);
    assert wr.balances.Keys == {s, d};
    assert wr.balances[s] == db.accounts[s].balance - amount;
    assert wr.balances[d] == db.accounts[d].balance + amount;
  }

  lemma CreateWrites(db: Db, call: Call, f: Fresh)
    requires ValidBody(call.body) && call.body.Create?
    ensures FitsColumns(WritesOf(call, [], f)) && PassesChecks(db, WritesOf(call, [], f))
    ensures TriggerAccepts(db, WritesOf(call, [], f))
  {
  }

  /** The trigger accepts a transfer's two legs. */
  lemma TransferPassesTrigger(db: Db, call: Call, rows: seq<Account>, f: Fresh)
    requires FreshFor(db, f) && call.body.Transfer? && |rows| == 2
    ensures TriggerAccepts(db, WritesOf(call, rows, f))
  {
    var Transfer(s, d, amount) := call.body;
    var legs := LegsOf(s, d, amount, f);
    assert legs == [legs[0], legs[1]];
    SumPair(db.entries, legs[0], legs[1], OfTransfer(f.resource));
    SumOfNothing(db.entries, OfTransfer(f.resource));
  }

  /** Publishing the buffered writes is what the sequential ledger does. */
  lemma PublishIsMoved(db: Db, call: Call, rows: seq<Account>, f: Fresh)
    requires call.body.Transfer? && !SameAccount(call.body) && |rows| == 2
    requires call.body.source in db.accounts && call.body.destination in db.accounts
    requires db.accounts[call.body.source] == RowOf(call.body, rows, call.body.source)
    requires db.accounts[call.body.destination] == RowOf(call.body, rows, call.body.destination)
    ensures Publish(db, call.key, WritesOf(call, rows, f)) == Moved(db, call, f)
  {
    var wr := WritesOf(call, rows, f);
    assert UpdateBalances(db.accounts, wr.balances) + wr.newAccounts == Moved(db, call, f).accounts;
  }

  lemma PublishIsOpened(db: Db, call: Call, f: Fresh)
    requires call.body.Create? && f.resource !in db.accounts
    ensures Publish(db, call.key, WritesOf(call, [], f)) == Opened(db, call, f)
  {
    var wr := WritesOf(call, [], f);
    assert UpdateBalances(db.accounts, wr.balances) == db.accounts;
    assert db.accounts + wr.newAccounts == Opened(db, call, f).accounts;
  }

  /** A commit succeeds, and does to the database what the sequential ledger would do now. */
  lemma CommitIsApply(w: World, r: Rid)
    requires r in w.procs && ProcOk(w, r) && ClaimsOk(w) && w.procs[r].phase.Flushed?
    ensures var p := w.procs[r];
            var wr := WritesOf(p.call, p.phase.rows, p.phase.drawn);
            && TriggerAccepts(w.db, wr)
            && Apply(w.db, p.call, p.phase.drawn)
               == Reply(Publish(w.db, p.call.key, wr), Created(ResponseTo(p.call.body, p.phase.drawn)))
  {
    var p := w.procs[r];
    LocksAreStable(w, r);
    if p.call.body.Transfer? {
      TransferPassesTrigger(w.db, p.call, p.phase.rows, p.phase.drawn);
      PublishIsMoved(w.db, p.call, p.phase.rows, p.phase.drawn);
    } else {
      CreateWrites(w.db, p.call, p.phase.drawn);
      PublishIsOpened(w.db, p.call, p.phase.drawn);
    }
  }

  // ---------- Flushing and committing ----------

  lemma IssueUndisturbed(w: World, r: Rid, t: Uuid, x: Uuid, y: Uuid)
    requires {t, x, y} !! w.issued.Keys
    ensures forall s | s in w.procs :: Undisturbed(w, Issue(w, r, t, x, y), s)
  {
  }

  lemma IssueKeepsInv(start: Db, w: World, r: Rid, t: Uuid, x: Uuid, y: Uuid)
    requires Inv(start, w) && {t, x, y} !! w.issued.Keys
    ensures Inv(start, Issue(w, r, t, x, y))
  {
    var w' := Issue(w, r, t, x, y);
    IssueUndisturbed(w, r, t, x, y);
    forall s | s in w'.procs ensures ProcOk(w', s) {
      UndisturbedStaysOk(w, w', s);
    }
    SameLogOk(start, w, w');
    assert TablesOk(w');
  }

  lemma NewIdsAreFresh(db: Db, ids: set<Uuid>, f: Fresh)
    requires IdsIn(db, ids) && {f.resource, f.debit, f.credit} !! ids && f.debit != f.credit
    ensures FreshFor(db, f)
  {
    forall i | 0 <= i < |db.entries|
      ensures db.entries[i].transferId != f.resource && db.entries[i].id != f.debit && db.entries[i].id != f.credit
    {
      assert db.entries[i].id in ids && db.entries[i].transferId in ids;
    }
  }

  /** Writing its entries does not make another transaction's uuids stale. */
  lemma StaysFresh(w: World, r: Rid, s: Rid)
    requires r in w.procs && s in w.procs && r != s && ProcOk(w, r) && ProcOk(w, s)
    requires w.procs[r].phase.Flushed? && w.procs[s].phase.Flushed?
    ensures var p := w.procs[r];
            FreshFor(Publish(w.db, p.call.key, WritesOf(p.call, p.phase.rows, p.phase.drawn)), w.procs[s].phase.drawn)
  {
  }

  /** The world once r's buffered writes are published. */
  function AfterCommit(w: World, r: Rid): World
    requires r in w.procs && w.procs[r].phase.Flushed?
    requires |w.procs[r].phase.rows| == |LockOrder(w.procs[r].call.body)|
  {
    var p := w.procs[r];
    var db := Publish(w.db, p.call.key, WritesOf(p.call, p.phase.rows, p.phase.drawn));
    Succeed(w, r, p.phase.drawn, ResponseTo(p.call.body, p.phase.drawn), db)
  }

  lemma CommitOthers(w: World, r: Rid)
    requires ProcsOk(w) && LocksOk(w) && r in w.procs && ProcOk(w, r) && w.procs[r].phase.Flushed?
    ensures OthersUndisturbed(w, AfterCommit(w, r), r)
  {
    var p := w.procs[r];
    var db := Publish(w.db, p.call.key, WritesOf(p.call, p.phase.rows, p.phase.drawn));
    var w' := AfterCommit(w, r);
    assert ProcOk(w, r);
    forall s | s in w.procs && s != r ensures Undisturbed(w, w', s) {
      assert ProcOk(w, s);
      forall id | id in w.rowLocks && w.rowLocks[id] == s && id in w.db.accounts
        ensures id in db.accounts && db.accounts[id] == w.db.accounts[id]
      {
        OnlyOwnRowsChange(w, r, id);
      }
      if w.procs[s].phase.Flushed? {
        StaysFresh(w, r, s);
      }
    }
  }

  lemma OnlyOwnRowsChange(w: World, r: Rid, id: Uuid)
    requires r in w.procs && ProcOk(w, r) && w.procs[r].phase.Flushed?
    requires id in w.db.accounts && (id in w.rowLocks ==> w.rowLocks[id] != r)
    ensures var p := w.procs[r];
            var db := Publish(w.db, p.call.key, WritesOf(p.call, p.phase.rows, p.phase.drawn));
            id in db.accounts && db.accounts[id] == w.db.accounts[id]
  {
  }

  lemma CommitIds(w: World, r: Rid)
    requires IdsIn(w.db, w.issued.Keys) && r in w.procs && ProcOk(w, r) && w.procs[r].phase.Flushed?
    ensures IdsIn(AfterCommit(w, r).db, w.issued.Keys)
  {
  }

  lemma CommitTables(w: World, r: Rid)
    requires TablesOk(w) && r in w.procs && ProcOk(w, r) && w.procs[r].phase.Flushed?
    ensures TablesOk(AfterCommit(w, r))
  {
    var p := w.procs[r];
    CommitIds(w, r);
    AbandonTables(Decide(w, r, p.phase.drawn, Created(ResponseTo(p.call.body, p.phase.drawn))), r,
                  Committed(ResponseTo(p.call.body, p.phase.drawn)));
    forall k | k in AfterCommit(w, r).claims ensures k != p.call.key {
      assert w.claims[k] != r;
    }
  }

  lemma CommitOwn(w: World, r: Rid)
    requires r in w.procs && ProcOk(w, r) && w.procs[r].phase.Flushed?
    ensures ProcOk(AfterCommit(w, r), r)
  {
    var w' := AfterCommit(w, r);
    assert RowsHeld(w', r);
    assert OutcomeOk(w', r);
  }

  lemma CommitLog(start: Db, w: World, r: Rid)
    requires LogOk(start, w) && r in w.procs && ProcOk(w, r) && ClaimsOk(w) && w.procs[r].phase.Flushed?
    ensures LogOk(start, AfterCommit(w, r))
  {
    var p := w.procs[r];
    CommitIsApply(w, r);
    var answer := Created(ResponseTo(p.call.body, p.phase.drawn));
    RecordedLogOk(start, w, AfterCommit(w, r), r, Decision(r, p.call, p.phase.drawn, answer));
  }

  lemma CommitSteps(w: World, r: Rid)
    requires ClaimsOk(w) && Enabled(w, Commit(r)) && ProcOk(w, r)
    ensures Step(w, Commit(r)) == AfterCommit(w, r)
  {
    assert ProcOk(w, r);
    CommitIsApply(w, r);
  }

  lemma CommitProcs(w: World, r: Rid)
    requires ProcsOk(w) && LocksOk(w) && r in w.procs && ProcOk(w, r) && w.procs[r].phase.Flushed?
    ensures ProcsOk(AfterCommit(w, r))
  {
    assert ProcOk(w, r);
    CommitOthers(w, r);
    CommitOwn(w, r);
    OthersStayOk(w, AfterCommit(w, r), r);
  }

  lemma CommitKeepsInv(start: Db, w: World, r: Rid)
    requires Inv(start, w) && r in w.procs && ProcOk(w, r) && w.procs[r].phase.Flushed?
    ensures Inv(start, AfterCommit(w, r))
  {
    assert ProcOk(w, r);
    CommitProcs(w, r);
    CommitTables(w, r);
    CommitLog(start, w, r);
  }

  // ---------- Every decision is the sequential ledger's ----------

  /** Whether the step settles the request's outcome by what the ledger says, without changing it. */
  ghost predicate Refuses(w: World, a: Action)
    requires Enabled(w, a)
  {
    && !a.Arrive?
    && var p := w.procs[a.r];
       match a
       case Validate(_) => SameAccount(p.call.body)
       case FastRead(_) => p.call.key in w.db.keys
       case RereadWinner(_) => p.call.key in w.db.keys
       case MissRow(_) => true
       case CheckFunds(_) => RowOf(p.call.body, p.phase.rows, p.call.body.source).balance < p.call.body.amount
       case Flush(_, t, x, y) => !FitsColumns(WritesOf(p.call, p.phase.rows, Fresh(p.phase.ts, t, x, y)))
       case _ => false
  }

  /** A flush draws its uuids whether or not its writes are then accepted. */
  function AfterIssue(w: World, a: Action): World {
    if a.Flush? then Issue(w, a.r, a.resource, a.debit, a.credit) else w
  }

  lemma ReplayIsSequential(w: World, r: Rid)
    requires r in w.procs && ProcOk(w, r) && w.procs[r].call.key in w.db.keys
    requires w.procs[r].phase.Reading? || w.procs[r].phase.RaceLost?
    ensures var call := w.procs[r].call;
            Apply(w.db, call, NOTHING_DRAWN).answer == Replay(w.db.keys[call.key], call)
  {
  }

  lemma MissIsSequential(w: World, r: Rid)
    requires ClaimsOk(w) && Enabled(w, MissRow(r)) && ProcOk(w, r)
    ensures var p := w.procs[r];
            Apply(w.db, p.call, NOTHING_DRAWN).answer == AccountNotFound(LockOrder(p.call.body)[|p.phase.rows|])
  {
    var p := w.procs[r];
    assert ProcOk(w, r);
    LocksAreStable(w, r);
    var order := LockOrder(p.call.body);
    assert forall i | 0 <= i < |p.phase.rows| :: order[i] in w.db.accounts;
  }

  lemma ShortfallIsSequential(w: World, r: Rid)
    requires ClaimsOk(w) && Enabled(w, CheckFunds(r)) && ProcOk(w, r)
    ensures var p := w.procs[r];
            var balance := RowOf(p.call.body, p.phase.rows, p.call.body.source).balance;
            balance < p.call.body.amount ==>
              Apply(w.db, p.call, NOTHING_DRAWN).answer
              == InsufficientFunds(p.call.body.source, balance, p.call.body.amount)
  {
    assert ProcOk(w, r);
    LocksAreStable(w, r);
  }

  /** The CHECK constraints pass, and 22003 is raised exactly when the credit would take the
      destination past NUMERIC(20, 4). */
  lemma OverflowIsSequential(w: World, r: Rid, f: Fresh)
    requires r in w.procs && ProcOk(w, r) && ClaimsOk(w) && InBounds(w.db)
    requires var p := w.procs[r];
             if p.call.body.Transfer? then p.phase.Funded? && |p.phase.rows| == 2
             else p.phase.Holding? && p.phase.rows == []
    ensures var p := w.procs[r];
            var wr := WritesOf(p.call, p.phase.rows, f);
            && PassesChecks(w.db, wr)
            && (!FitsColumns(wr) <==>
                  && p.call.body.Transfer? && p.call.body.destination in w.db.accounts
                  && w.db.accounts[p.call.body.destination].balance + p.call.body.amount > MAX_MONEY)
            && (!FitsColumns(wr) ==> Apply(w.db, p.call, NOTHING_DRAWN).answer == AmountOutOfRange)
            && (FitsColumns(wr) && p.call.body.Transfer? ==>
                  RowOf(p.call.body, p.phase.rows, p.call.body.destination).balance + p.call.body.amount <= MAX_MONEY)
  {
    var p := w.procs[r];
    assert ProcOk(w, r);
    LocksAreStable(w, r);
    if p.call.body.Create? {
      CreateWrites(w.db, p.call, f);
    } else {
      FundedWrites(w.db, p.call, p.phase.rows, f);
    }
  }

  /** What the code answers when it refuses. */
  ghost function RefusalOf(w: World, a: Action): Answer
    requires Enabled(w, a) && Refuses(w, a)
  {
    var p := w.procs[a.r];
    if a.MissRow? then AccountNotFound(LockOrder(p.call.body)[|p.phase.rows|])
    else if a.CheckFunds? then
      var body := p.call.body;
      InsufficientFunds(body.source, RowOf(body, p.phase.rows, body.source).balance, body.amount)
    else if a.Flush? then AmountOutOfRange
    else if a.Validate? then SameAccountTransfer
    else Replay(w.db.keys[p.call.key], p.call)
  }

  lemma RefusalStep(w: World, a: Action)
    requires Enabled(w, a) && Refuses(w, a)
    ensures Step(w, a) == Refuse(AfterIssue(w, a), a.r, RefusalOf(w, a))
    ensures !RefusalOf(w, a).Created? && !Incidental(RefusalOf(w, a))
  {
  }

  /** A refusal at any point of the protocol is the answer the sequential ledger gives to the same
      request in the state committed at that moment. */
  lemma RefusalsAreSequential(w: World, a: Action)
    requires ProcsOk(w) && ClaimsOk(w) && InBounds(w.db) && Enabled(w, a) && Refuses(w, a)
    ensures Apply(w.db, w.procs[a.r].call, NOTHING_DRAWN).answer == RefusalOf(w, a)
  {
    var answer := Apply(w.db, w.procs[a.r].call, NOTHING_DRAWN).answer;
    match a {
      case MissRow(r) => assert ProcOk(w, r); MissIsSequential(w, r);
      case CheckFunds(r) => assert ProcOk(w, r); ShortfallIsSequential(w, r);
      case Flush(r, t, x, y) => assert ProcOk(w, r); OverflowIsSequential(w, r, Fresh(w.procs[r].phase.ts, t, x, y));
      case FastRead(r) => assert ProcOk(w, r); ReplayIsSequential(w, r);
      case RereadWinner(r) => assert ProcOk(w, r); ReplayIsSequential(w, r);
      case Validate(r) =>
    }
  }

  // ---------- Every step keeps the invariant ----------

  /** The steps that only move their own request on. */
  ghost predicate Advances(w: World, a: Action)
    requires Enabled(w, a)
  {
    (a.Validate? || a.FastRead? || a.SkipRead? || a.Begin? || a.CheckFunds? || a.Respond?) && !Refuses(w, a)
  }

  lemma AdvanceKeepsInv(start: Db, w: World, a: Action)
    requires Inv(start, w) && Enabled(w, a) && Advances(w, a)
    ensures Inv(start, Step(w, a))
  {
    assert ProcOk(w, a.r);
    AdvanceStep(w, a);
    AdvanceOwn(w, a);
    PutKeepsInv(start, w, a.r, NextPhase(w, a));
  }

  ghost function NextPhase(w: World, a: Action): Phase
    requires Enabled(w, a) && Advances(w, a)
  {
    var p := w.procs[a.r];
    match a
    case Validate(_) => Reading
    case Begin(_, ts) => Claiming(ts)
    case CheckFunds(_) => Funded(p.phase.ts, p.phase.rows)
    case Respond(_) => Finished(Created(p.phase.response))
    case _ => Missed
  }

  lemma AdvanceStep(w: World, a: Action)
    requires Enabled(w, a) && Advances(w, a)
    ensures Step(w, a) == Put(w, a.r, NextPhase(w, a))
  {
  }

  lemma AdvanceOwn(w: World, a: Action)
    requires Enabled(w, a) && Advances(w, a) && ProcOk(w, a.r)
    ensures ProcOk(Put(w, a.r, NextPhase(w, a)), a.r)
  {
  }

  lemma FlushSteps(start: Db, w: World, a: Action)
    requires Inv(start, w) && a.Flush? && Enabled(w, a) && !Refuses(w, a)
    ensures var p := w.procs[a.r];
            var f := Fresh(p.phase.ts, a.resource, a.debit, a.credit);
            && Step(w, a) == Put(AfterIssue(w, a), a.r, Flushed(f, p.phase.rows))
            && FreshFor(w.db, f)
            && (if p.call.body.Create? then p.phase.Holding? && p.phase.rows == []
                else
                  && p.phase.Funded? && |p.phase.rows| == 2
                  && RowOf(p.call.body, p.phase.rows, p.call.body.destination).balance + p.call.body.amount
                     <= MAX_MONEY)
  {
    var p := w.procs[a.r];
    var f := Fresh(p.phase.ts, a.resource, a.debit, a.credit);
    LedgerStaysOk(start, w);
    assert ProcOk(w, a.r);
    OverflowIsSequential(w, a.r, f);
    NewIdsAreFresh(w.db, w.issued.Keys, f);
  }

  lemma FlushKeepsInv(start: Db, w: World, a: Action)
    requires Inv(start, w) && a.Flush? && Enabled(w, a) && !Refuses(w, a)
    ensures Inv(start, Step(w, a))
  {
    var r, p := a.r, w.procs[a.r];
    var f := Fresh(p.phase.ts, a.resource, a.debit, a.credit);
    var w1 := Issue(w, r, a.resource, a.debit, a.credit);
    FlushSteps(start, w, a);
    IssueKeepsInv(start, w, r, a.resource, a.debit, a.credit);
    assert ProcOk(w1, r);
    hide Step, Enabled, Refuses, TablesOk, LogOk;
    FlushOwn(w1, r, f);
    PutKeepsInv(start, w1, r, Flushed(f, p.phase.rows));
  }

  lemma FlushOwn(w: World, r: Rid, f: Fresh)
    requires r in w.procs && ProcOk(w, r) && FreshFor(w.db, f)
    requires DrawnBy(w, f.resource, r) && DrawnBy(w, f.debit, r) && DrawnBy(w, f.credit, r)
    requires var p := w.procs[r];
             if p.call.body.Transfer? then
               && p.phase.Funded? && |p.phase.rows| == 2
               && RowOf(p.call.body, p.phase.rows, p.call.body.destination).balance + p.call.body.amount <= MAX_MONEY
             else p.phase.Holding? && p.phase.rows == []
    ensures ProcOk(Put(w, r, Flushed(f, w.procs[r].phase.rows)), r)
  {
    assert RowsHeld(Put(w, r, Flushed(f, w.procs[r].phase.rows)), r);
  }

  /** The steps that end a transaction without settling the outcome. */
  ghost predicate GivesUp(w: World, a: Action)
    requires Enabled(w, a)
  {
    a.Duplicate? || a.TimeOut? || a.DeadlockVictim? || a.Fail? || a.Crash?
  }

  ghost function LastPhase(a: Action): Phase {
    if a.Duplicate? then RaceLost
    else if a.TimeOut? || a.DeadlockVictim? then Finished(LockTimeout)
    else if a.Fail? then Finished(InternalError)
    else Dead
  }

  lemma GiveUpStep(w: World, a: Action)
    requires Enabled(w, a) && GivesUp(w, a)
    ensures Step(w, a) == Abandon(w, a.r, LastPhase(a))
  {
  }

  lemma GiveUpOwn(w: World, a: Action)
    requires Enabled(w, a) && GivesUp(w, a) && ProcOk(w, a.r)
    requires a.DeadlockVictim? ==> WaitsFor(w, a.r).Some?
    ensures ProcOk(Abandon(w, a.r, LastPhase(a)), a.r)
  {
    var w' := Abandon(w, a.r, LastPhase(a));
    assert RowsHeld(w', a.r);
  }

  lemma GiveUpKeepsInv(start: Db, w: World, a: Action)
    requires Inv(start, w) && Enabled(w, a) && GivesUp(w, a)
    ensures Inv(start, Step(w, a))
  {
    assert ProcOk(w, a.r);
    if a.DeadlockVictim? {
      VictimsWait(w, a.r);
    }
    GiveUpStep(w, a);
    GiveUpOwn(w, a);
    AbandonKeepsInv(start, w, a.r, LastPhase(a));
  }

  lemma UndecidedUntilRefused(start: Db, w: World, a: Action)
    requires Inv(start, w) && Enabled(w, a) && Refuses(w, a)
    ensures w.procs[a.r].decided.None?
  {
    assert ProcOk(w, a.r);
  }

  lemma RefusalKeepsInv(start: Db, w: World, a: Action)
    requires Inv(start, w) && Enabled(w, a) && Refuses(w, a)
    ensures Inv(start, Step(w, a))
  {
    LedgerStaysOk(start, w);
    RefusalStep(w, a);
    RefusalsAreSequential(w, a);
    UndecidedUntilRefused(start, w, a);
    if a.Flush? {
      IssueKeepsInv(start, w, a.r, a.resource, a.debit, a.credit);
    }
    RefuseKeepsInv(start, AfterIssue(w, a), a.r, RefusalOf(w, a));
  }

  lemma RereadFindsTheWinner(w: World, r: Rid)
    requires ProcsOk(w) && Enabled(w, RereadWinner(r))
    ensures Refuses(w, RereadWinner(r))
  {
    assert ProcOk(w, r);
  }

  lemma StepKeepsInv(start: Db, w: World, a: Action)
    requires Inv(start, w) && Enabled(w, a)
    ensures Inv(start, Step(w, a))
  {
    if a.RereadWinner? {
      RereadFindsTheWinner(w, a.r);
    }
    if Refuses(w, a) {
      RefusalKeepsInv(start, w, a);
    } else if Advances(w, a) {
      AdvanceKeepsInv(start, w, a);
    } else if GivesUp(w, a) {
      GiveUpKeepsInv(start, w, a);
    } else {
      match a {
        case Arrive(r, call) => ArriveKeepsInv(start, w, r, call);
        case Claim(r) => ClaimKeepsInv(start, w, r, w.procs[r].phase.ts);
        case LockRow(r) =>
          var p := w.procs[r];
          LockRowKeepsInv(start, w, r, p.phase.ts, p.phase.rows, LockOrder(p.call.body)[|p.phase.rows|]);
        case Flush(_, _, _, _) => FlushKeepsInv(start, w, a);
        case Commit(r) =>
          assert ProcOk(w, r);
          CommitSteps(w, r);
          CommitKeepsInv(start, w, r);
      }
    }
  }

  lemma {:induction false} RunKeepsInv(start: Db, w: World, acts: seq<Action>, w': World)
    requires Inv(start, w) && Leads(w, acts, w')
    ensures Inv(start, w')
    decreases |acts|
  {
    hide Inv, Leads, Enabled, Step;
    if acts == [] {
      StandingStill(w, w');
    } else {
      var before := LastStep(w, acts, w');
      RunKeepsInv(start, w, acts[..|acts| - 1], before);
      StepKeepsInv(start, before, acts[|acts| - 1]);
    }
  }
}
