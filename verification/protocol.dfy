/** The protocol as a state machine: any number of requests, on any number of stateless instances,
    interleaved one database statement at a time (app/services/idempotency.py,
    app/services/transfers.py, app/services/accounts.py).

    PostgreSQL is represented by what the code relies on: a row lock and an uncommitted key row
    exclude others until their transaction ends; a statement sees the latest committed rows and its
    own writes; a transaction's writes appear at its commit, all at once; constraint triggers run
    at commit. */
module Protocol {
  import opened Models
  import opened Requests
  import opened Ledger
  import opened History

  type Rid = nat

  /** Where a request is in the code. */
  datatype Phase =
    | Received                                    // before the same-account check
    | Reading                                     // about to look for a finished request with this key
    | Missed                                      // found none
    | Claiming(ts: int)                           // inserting the key row, perhaps waiting
    | Holding(ts: int, rows: seq<Account>)        // claim taken; account rows locked and read so far
    | Funded(ts: int, rows: seq<Account>)         // both rows locked and the balance suffices
    | Flushed(drawn: Fresh, rows: seq<Account>)   // all writes sent, none visible yet
    | RaceLost                                    // the key row was already committed
    | Committed(response: Response)               // effect durable, answer not yet sent
    | Finished(answer: Answer)
    | Dead                                        // the instance or the connection went away

  /** A request, and where in the log its outcome was decided. */
  datatype Proc = Proc(call: Call, phase: Phase, decided: Option<nat>)

  datatype World = World(
    db: Db,                         // what is committed
    claims: map<string, Rid>,       // key rows inserted and not yet committed
    rowLocks: map<Uuid, Rid>,       // rows of accounts held FOR UPDATE
    issued: map<Uuid, Rid>,         // every uuid generated so far, and by which request
    procs: map<Rid, Proc>,
    log: seq<Decision>)             // outcomes in the order they were decided

  datatype Action =
    | Arrive(r: Rid, call: Call)
    | Validate(r: Rid)
    | FastRead(r: Rid)
    | SkipRead(r: Rid)              // execute_once without its fast path
    | Begin(r: Rid, ts: int)
    | Claim(r: Rid)
    | Duplicate(r: Rid)
    | RereadWinner(r: Rid)
    | LockRow(r: Rid)
    | MissRow(r: Rid)
    | CheckFunds(r: Rid)
    | Flush(r: Rid, resource: Uuid, debit: Uuid, credit: Uuid)
    | Commit(r: Rid)
    | Respond(r: Rid)
    | TimeOut(r: Rid)
    | DeadlockVictim(r: Rid)
    | Fail(r: Rid)                  // any other exception
    | Crash(r: Rid)

  // ---------- Transactions ----------

  /** sorted([from_account_id, to_account_id]) */
  function LockOrder(body: Body): (order: seq<Uuid>)
    ensures |order| == if body.Transfer? then 2 else 0
    ensures body.Transfer? ==> order[0] <= order[1]
    ensures body.Transfer? ==> body.source in order && body.destination in order
  {
    if body.Create? then []
    else if body.source <= body.destination then [body.source, body.destination]
    else [body.destination, body.source]
  }

  predicate InTx(phase: Phase) {
    phase.Holding? || phase.Funded? || phase.Flushed?
  }

  predicate Over(phase: Phase) {
    phase.Finished? || phase.Dead?
  }

  function Rows(phase: Phase): seq<Account> {
    if InTx(phase) then phase.rows else []
  }

  /** The row locked for an account of the transfer, as read when its lock was granted. */
  function RowOf(body: Body, rows: seq<Account>, id: Uuid): Account
    requires body.Transfer? && |rows| == 2
  {
    if LockOrder(body)[0] == id then rows[0] else rows[1]
  }

  /** What a transaction writes: new balances, new rows, and the completed key row. */
  datatype Writes = Writes(
    balances: map<Uuid, int>, newAccounts: map<Uuid, Account>, entries: seq<Entry>, record: KeyRecord)

  /** The writes of a request, computed from the values it read under its locks. */
  function WritesOf(call: Call, rows: seq<Account>, f: Fresh): Writes
    requires |rows| == |LockOrder(call.body)|
  {
    match call.body
    case Transfer(s, d, amount) =>
      var balances := map[
        s := RowOf(call.body, rows, s).balance - amount,
        d := RowOf(call.body, rows, d).balance + amount];
      Writes(balances, map[], LegsOf(s, d, amount, f), RecordOf(call, f))
    case Create(balance) =>
      Writes(map[], map[f.resource := Account(balance, balance, f.ts)], [], RecordOf(call, f))
  }

  /** NUMERIC(20, 4): otherwise 22003. */
  predicate FitsColumns(wr: Writes) {
    && (forall id | id in wr.balances :: -MAX_MONEY <= wr.balances[id] <= MAX_MONEY)
    && (forall id | id in wr.newAccounts :: -MAX_MONEY <= wr.newAccounts[id].balance <= MAX_MONEY)
  }

  /** The CHECK and FOREIGN KEY constraints: otherwise 23514 or 23503. */
  predicate PassesChecks(db: Db, wr: Writes) {
    && (forall id | id in wr.balances :: wr.balances[id] >= 0)
    && (forall id | id in wr.newAccounts :: wr.newAccounts[id].balance >= 0 && wr.newAccounts[id].opening >= 0)
    && (forall i | 0 <= i < |wr.entries| :: wr.entries[i].amount != 0 && wr.entries[i].accountId in db.accounts)
  }

  /** The deferred conservation trigger, run for each inserted entry at commit: otherwise 23514. */
  predicate TriggerAccepts(db: Db, wr: Writes) {
    forall i | 0 <= i < |wr.entries| ::
      Sum(db.entries + wr.entries, OfTransfer(wr.entries[i].transferId)) == 0
  }

  function UpdateBalances(accounts: map<Uuid, Account>, balances: map<Uuid, int>): map<Uuid, Account> {
    map id | id in accounts ::
      if id in balances then accounts[id].(balance := balances[id]) else accounts[id]
  }

  function Publish(db: Db, key: string, wr: Writes): Db {
    Db(UpdateBalances(db.accounts, wr.balances) + wr.newAccounts, db.entries + wr.entries, db.keys[key := wr.record])
  }

  // ---------- Waiting ----------

  /** The request whose transaction must end before r's current statement can return. */
  function WaitsFor(w: World, r: Rid): Option<Rid>
    requires r in w.procs
  {
    var p := w.procs[r];
    var order := LockOrder(p.call.body);
    if p.phase.Claiming? && p.call.key in w.claims then Some(w.claims[p.call.key])
    else if p.phase.Holding? && |p.phase.rows| < |order| && order[|p.phase.rows|] in w.rowLocks
    then Some(w.rowLocks[order[|p.phase.rows|]])
    else None
  }

  /** Each request on the path waits for the next. */
  ghost predicate WaitPath(w: World, path: seq<Rid>) {
    && (forall i | 0 <= i < |path| :: path[i] in w.procs)
    && (forall i {:trigger WaitsFor(w, path[i])} | 0 <= i < |path| - 1 :: WaitsFor(w, path[i]) == Some(path[i + 1]))
  }

  ghost predicate Deadlocked(w: World, r: Rid) {
    exists path :: |path| >= 2 && WaitPath(w, path) && path[0] == path[|path| - 1] == r
  }

  lemma VictimsWait(w: World, r: Rid)
    requires Deadlocked(w, r)
    ensures r in w.procs && WaitsFor(w, r).Some?
  {
    var path :| |path| >= 2 && WaitPath(w, path) && path[0] == path[|path| - 1] == r;
    assert WaitsFor(w, path[0]) == Some(path[1]);
  }

  // ---------- Steps ----------

  ghost predicate Enabled(w: World, a: Action) {
    if a.Arrive? then a.r !in w.procs && Admitted(a.call)
    else
      a.r in w.procs &&
      var p := w.procs[a.r];
      var c, order := p.call, LockOrder(p.call.body);
      match a
      case Validate(_) => p.phase.Received?
      case FastRead(_) => p.phase.Reading?
      case SkipRead(_) => p.phase.Reading?
      case Begin(_, _) => p.phase.Missed?
      case Claim(_) => p.phase.Claiming? && c.key !in w.claims && c.key !in w.db.keys
      case Duplicate(_) => p.phase.Claiming? && c.key !in w.claims && c.key in w.db.keys
      case RereadWinner(_) => p.phase.RaceLost?
      case LockRow(_) =>
        && p.phase.Holding? && |p.phase.rows| < |order|
        && order[|p.phase.rows|] in w.db.accounts && order[|p.phase.rows|] !in w.rowLocks
      case MissRow(_) =>
        p.phase.Holding? && |p.phase.rows| < |order| && order[|p.phase.rows|] !in w.db.accounts
      case CheckFunds(_) => p.phase.Holding? && c.body.Transfer? && |p.phase.rows| == 2
      case Flush(_, t, x, y) =>
        && (if c.body.Transfer? then p.phase.Funded? && |p.phase.rows| == 2 else p.phase.Holding? && p.phase.rows == [])
        && {t, x, y} !! w.issued.Keys && t != x && t != y && x != y
      case Commit(_) => p.phase.Flushed? && |p.phase.rows| == |order|
      case Respond(_) => p.phase.Committed?
      case TimeOut(_) => WaitsFor(w, a.r).Some?
      case DeadlockVictim(_) => Deadlocked(w, a.r)
      case Fail(_) => !Over(p.phase)
      case Crash(_) => !Over(p.phase)
  }

  function Put(w: World, r: Rid, phase: Phase): World
    requires r in w.procs
  {
    w.(procs := w.procs[r := w.procs[r].(phase := phase)])
  }

  function Admit(w: World, r: Rid, call: Call): World {
    w.(procs := w.procs[r := Proc(call, Received, None)])
  }

  /** The key row is inserted, not yet committed. */
  function TakeClaim(w: World, r: Rid, ts: int): World
    requires r in w.procs
  {
    Put(w, r, Holding(ts, [])).(claims := w.claims[w.procs[r].call.key := r])
  }

  /** The row is locked, then read. */
  function TakeRow(w: World, r: Rid, ts: int, rows: seq<Account>, id: Uuid): World
    requires r in w.procs && id in w.db.accounts
  {
    Put(w, r, Holding(ts, rows + [w.db.accounts[id]])).(rowLocks := w.rowLocks[id := r])
  }

  /** The end of r's transaction frees its key claim and its row locks. */
  function Release(w: World, r: Rid): World {
    w.(claims := map k | k in w.claims && w.claims[k] != r :: w.claims[k],
       rowLocks := map id | id in w.rowLocks && w.rowLocks[id] != r :: w.rowLocks[id])
  }

  /** Rolls back and answers. */
  function Abandon(w: World, r: Rid, phase: Phase): World
    requires r in w.procs
  {
    Release(Put(w, r, phase), r)
  }

  /** Records an outcome that depends on the state of the ledger. */
  function Decide(w: World, r: Rid, f: Fresh, answer: Answer): World
    requires r in w.procs
  {
    var p := w.procs[r];
    w.(procs := w.procs[r := p.(decided := Some(|w.log|))], log := w.log + [Decision(r, p.call, f, answer)])
  }

  /** uuid4(), three times. */
  function Issue(w: World, r: Rid, t: Uuid, x: Uuid, y: Uuid): World {
    w.(issued := w.issued[t := r][x := r][y := r])
  }

  /** Commits: the writes become visible and the locks are released, all at once. */
  function Succeed(w: World, r: Rid, f: Fresh, response: Response, db: Db): World
    requires r in w.procs
  {
    Abandon(Decide(w, r, f, Created(response)), r, Committed(response)).(db := db)
  }

  const NOTHING_DRAWN: Fresh := Fresh(0, 0, 0, 0)

  /** Rolls back and answers with something the ledger said. */
  function Refuse(w: World, r: Rid, answer: Answer): World
    requires r in w.procs
  {
    Abandon(Decide(w, r, NOTHING_DRAWN, answer), r, Finished(answer))
  }

  /** One step. It touches no other request, extends the log, and changes the database only by a
      successful commit. */
  function Step(w: World, a: Action): (w': World)
    requires Enabled(w, a)
    ensures w'.procs.Keys == w.procs.Keys + {a.r}
    ensures forall r | r in w.procs && r != a.r :: w'.procs[r] == w.procs[r]
    ensures a.r in w.procs ==> w'.procs[a.r].call == w.procs[a.r].call
    ensures w.log <= w'.log
    ensures w'.procs[a.r].phase.Committed? || w'.db == w.db
  {
    if a.Arrive? then Admit(w, a.r, a.call)
    else
      var r, p := a.r, w.procs[a.r];
      var c, order := p.call, LockOrder(p.call.body);
      match a
      case Validate(_) =>
        if SameAccount(c.body) then Refuse(w, r, SameAccountTransfer) else Put(w, r, Reading)
      case FastRead(_) =>
        if c.key in w.db.keys then Refuse(w, r, Replay(w.db.keys[c.key], c)) else Put(w, r, Missed)
      case SkipRead(_) => Put(w, r, Missed)
      case Begin(_, ts) => Put(w, r, Claiming(ts))
      case Claim(_) => TakeClaim(w, r, p.phase.ts)
      case Duplicate(_) => Abandon(w, r, RaceLost)
      case RereadWinner(_) =>
        if c.key in w.db.keys then Refuse(w, r, Replay(w.db.keys[c.key], c))
        else Abandon(w, r, Finished(InternalError))
      case LockRow(_) =>
        TakeRow(w, r, p.phase.ts, p.phase.rows, order[|p.phase.rows|])
      case MissRow(_) => Refuse(w, r, AccountNotFound(order[|p.phase.rows|]))
      case CheckFunds(_) =>
        var balance := RowOf(c.body, p.phase.rows, c.body.source).balance;
        if balance < c.body.amount then Refuse(w, r, InsufficientFunds(c.body.source, balance, c.body.amount))
        else Put(w, r, Funded(p.phase.ts, p.phase.rows))
      case Flush(_, t, x, y) =>
        var f := Fresh(p.phase.ts, t, x, y);
        var wr := WritesOf(c, p.phase.rows, f);
        var issued := Issue(w, r, t, x, y);
        if !FitsColumns(wr) then Refuse(issued, r, AmountOutOfRange)
        else if !PassesChecks(w.db, wr) then Abandon(issued, r, Finished(InternalError))
        else Put(issued, r, Flushed(f, p.phase.rows))
      case Commit(_) =>
        var f := p.phase.drawn;
        var wr := WritesOf(c, p.phase.rows, f);
        if !TriggerAccepts(w.db, wr) then Abandon(w, r, Finished(InternalError))
        else
          Succeed(w, r, f, ResponseTo(c.body, f), Publish(w.db, c.key, wr))
      case Respond(_) => Put(w, r, Finished(Created(p.phase.response)))
      case TimeOut(_) => Abandon(w, r, Finished(LockTimeout))
      case DeadlockVictim(_) => Abandon(w, r, Finished(LockTimeout))
      case Fail(_) => Abandon(w, r, Finished(InternalError))
      case Crash(_) => Abandon(w, r, Dead)
  }

  // ---------- Runs ----------

  /** The schedule leads from w to w', each of its actions being possible when its turn comes. */
  ghost predicate Leads(w: World, acts: seq<Action>, w': World) {
    exists worlds: seq<World> :: Visits(worlds, acts) && worlds[0] == w && worlds[|acts|] == w'
  }

  ghost predicate Visits(worlds: seq<World>, acts: seq<Action>) {
    && |worlds| == |acts| + 1
    && forall i {:trigger acts[i]} | 0 <= i < |acts| ::
         Enabled(worlds[i], acts[i]) && worlds[i + 1] == Step(worlds[i], acts[i])
  }

  lemma StandingStill(w: World, w': World)
    ensures Leads(w, [], w') <==> w == w'
  {
    if w == w' {
      assert Visits([w], []);
    }
  }

  lemma OneStepMore(w: World, acts: seq<Action>, w': World, a: Action)
    requires Leads(w, acts, w') && Enabled(w', a)
    ensures Leads(w, acts + [a], Step(w', a))
  {
    hide Enabled, Step;
    var worlds :| Visits(worlds, acts) && worlds[0] == w && worlds[|acts|] == w';
    var longer := worlds + [Step(w', a)];
    assert Visits(longer, acts + [a]);
  }

  lemma OneStep(w: World, a: Action)
    requires Enabled(w, a)
    ensures Leads(w, [a], Step(w, a))
  {
    StandingStill(w, w);
    OneStepMore(w, [], w, a);
    assert [] + [a] == [a];
  }

  lemma LastStep(w: World, acts: seq<Action>, w': World) returns (before: World)
    requires Leads(w, acts, w') && acts != []
    ensures var shorter, a := acts[..|acts| - 1], acts[|acts| - 1];
            Leads(w, shorter, before) && Enabled(before, a) && w' == Step(before, a)
  {
    hide Enabled, Step;
    var worlds :| Visits(worlds, acts) && worlds[0] == w && worlds[|acts|] == w';
    before := worlds[|acts| - 1];
    assert Visits(worlds[..|acts|], acts[..|acts| - 1]);
  }

  lemma {:induction false} OneAfterTheOther(w: World, a: seq<Action>, w': World, b: seq<Action>, w'': World)
    requires Leads(w, a, w') && Leads(w', b, w'')
    ensures Leads(w, a + b, w'')
    decreases |b|
  {
    hide Leads, Enabled, Step;
    if b == [] {
      StandingStill(w', w'');
      assert a + b == a;
    } else {
      var before := LastStep(w', b, w'');
      OneAfterTheOther(w, a, w', b[..|b| - 1], before);
      OneStepMore(w, a + b[..|b| - 1], before, b[|b| - 1]);
      assert a + b == a + b[..|b| - 1] + [b[|b| - 1]];
    }
  }

  ghost predicate IdsIn(db: Db, ids: set<Uuid>) {
    && db.accounts.Keys <= ids
    && (forall i | 0 <= i < |db.entries| :: db.entries[i].id in ids && db.entries[i].transferId in ids)
  }

  /** A database whose invariants hold, with no request in flight. */
  ghost predicate Initial(w: World) {
    && LedgerOk(w.db) && IdsIn(w.db, w.issued.Keys)
    && w.claims == map[] && w.rowLocks == map[] && w.procs == map[] && w.log == []
  }
}
