/** From the body a client sent to the rows in the tables and back. */
module EndToEnd {
  import opened Models
  import opened Money
  import opened Requests
  import opened Ledger
  import opened History
  import opened Protocol
  import opened Invariants
  import opened Guarantees
  import opened Liveness
  import opened FastPath

  // ---------- What a 201 is worth ----------

  /** Two rows, one after the other, that move x from one account to another. */
  predicate MovesFromTo(a: Entry, b: Entry, source: Uuid, destination: Uuid, x: int) {
    && a.accountId == source && a.amount == -x
    && b.accountId == destination && b.amount == x
    && a.transferId == b.transferId && a.createdAt == b.createdAt
  }

  /** A 201 to a transfer: the tables have a debit of the value written, on the account the client
      wrote as the source, and a credit of it on the destination, and the client was told so. */
  lemma CreatedTransferIsAsSent(w0: World, acts: seq<Action>, w: World, r: Rid, raw: RawBody, response: Response)
    returns (i: nat, x: nat)
    requires Initial(w0) && Leads(w0, acts, w) && Answered(w, r, Created(response))
    requires SentAs(w.procs[r].call, raw) && raw.RawTransfer?
    ensures x > 0 && IsUnits(raw.amount, x)
    ensures i + 1 < |w.db.entries|
    ensures MovesFromTo(w.db.entries[i], w.db.entries[i + 1], raw.source, raw.destination, x)
    ensures response == TransferResponse(
                          w.db.entries[i].transferId, raw.source, raw.destination, x, w.db.entries[i].createdAt)
  {
    CreatedMeansUnused(w0, acts, w, r, response);
    AnswersTellTheTruth(w0, acts, w, r, Created(response));
    BodiesMeanWhatTheySay(raw);
    x := w.procs[r].call.body.amount;
    var TransferResponse(t, s, d, amount, ts) := response;
    i :| 0 <= i < |w.db.entries| - 1 && AreLegs(w.db.entries[i], w.db.entries[i + 1], t, s, d, amount, ts);
  }

  /** A 201 to a new account: it is there, opened with the balance the client wrote. */
  lemma CreatedAccountIsAsSent(w0: World, acts: seq<Action>, w: World, r: Rid, raw: RawBody, response: Response)
    requires Initial(w0) && Leads(w0, acts, w) && Answered(w, r, Created(response))
    requires SentAs(w.procs[r].call, raw) && raw.RawCreate?
    ensures response.AccountResponse? && response.balance >= 0 && IsUnits(raw.initialBalance, response.balance)
    ensures response.id in w.db.accounts
    ensures w.db.accounts[response.id].opening == response.balance
    ensures w.db.accounts[response.id].createdAt == response.createdAt
  {
    CreatedMeansUnused(w0, acts, w, r, response);
    AnswersTellTheTruth(w0, acts, w, r, Created(response));
    BodiesMeanWhatTheySay(raw);
  }

  lemma CreatedMeansUnused(w0: World, acts: seq<Action>, w: World, r: Rid, response: Response)
    requires Initial(w0) && Leads(w0, acts, w) && Answered(w, r, Created(response))
    ensures w.procs[r].call.key !in w0.db.keys
  {
    RunInv(w0, acts, w);
    var i := PlaceInLog(w, r, Created(response));
    OneEffectPerKey(w0, acts, w, i, i);
  }

  // ---------- What a key's record says ----------

  /** Every key row committed by the run names the operation it was used for, has its response and its
      resource, and comes from a request with that fingerprint. */
  lemma RecordsNameTheirOperation(w0: World, acts: seq<Action>, w: World, key: string) returns (i: nat)
    requires Initial(w0) && Leads(w0, acts, w) && key in w.db.keys && key !in w0.db.keys
    ensures i < |w.log| && w.log[i].call.key == key && w.log[i].answer.Created?
    ensures var record, body := w.db.keys[key], w.log[i].call.body;
            && (record.operation.CreateTransfer? <==> body.Transfer?)
            && (record.operation.CreateAccount? <==> body.Create?)
            && record.hash == w.log[i].call.hash
            && record.status == Some(201) && record.body == Some(w.log[i].answer.response)
            && (body.Transfer? <==> w.log[i].answer.response.TransferResponse?)
            && record.resourceId == Some(match w.log[i].answer.response
                                         case TransferResponse(t, _, _, _, _) => t
                                         case AccountResponse(id, _, _) => id)
  {
    RunInv(w0, acts, w);
    i := KeyHasAnAuthor(w0.db, w.log, key);
  }

  // ---------- What is not ruled out ----------

  /** The runs are those from any database that satisfies the stated invariants. */
  lemma AnySoundLedgerMayBeTheStart(db: Db, issued: map<Uuid, Rid>)
    requires Paired(db.entries) && CacheHonest(db) && InBounds(db) && ForeignKeys(db) && KeysComplete(db)
    requires db.accounts.Keys <= issued.Keys
    requires forall i | 0 <= i < |db.entries| ::
               db.entries[i].id in issued && db.entries[i].transferId in issued
    ensures Initial(World(db, map[], map[], issued, map[], []))
  {
  }

  /** At any point a request may fail or its instance die; while it waits, it may time out; it may read
      first or not; and its transaction may begin at any time of day. */
  lemma AnythingMayHappen(w: World, r: Rid, ts: int)
    requires r in w.procs
    ensures !Over(w.procs[r].phase) ==> Enabled(w, Fail(r)) && Enabled(w, Crash(r))
    ensures WaitsFor(w, r).Some? ==> Enabled(w, TimeOut(r))
    ensures w.procs[r].phase.Reading? ==> Enabled(w, FastRead(r)) && Enabled(w, SkipRead(r))
    ensures w.procs[r].phase.Missed? ==> Enabled(w, Begin(r, ts))
  {
    hide WaitsFor, Deadlocked, Admitted, LockOrder;
  }

  /** The uuids a request draws may be any that are new. */
  lemma AnyNewUuidsMayBeDrawn(start: Db, w: World, r: Rid, t: Uuid, x: Uuid, y: Uuid)
    requires Inv(start, w) && r in w.procs && w.procs[r].phase.Funded?
    requires t !in w.issued && x !in w.issued && y !in w.issued && t != x && t != y && x != y
    ensures Enabled(w, Flush(r, t, x, y))
  {
    assert ProcOk(w, r);
  }

  // ---------- What a request can count on ----------

  /** Any accepted body may be sent at any time, under any key. */
  lemma AnybodyMayAsk(w: World, r: Rid, key: string, raw: RawBody)
    requires r !in w.procs && Accepted(raw)
    ensures var call := Call(key, Meaning(raw), Fingerprint(raw));
            && SentAs(call, raw) && Enabled(w, Arrive(r, call))
            && Step(w, Arrive(r, call)) == w.(procs := w.procs[r := Proc(call, Received, None)])
  {
    var call := Call(key, Meaning(raw), Fingerprint(raw));
    assert SentAs(call, raw);
  }

  /** Nobody holds the key or the row of an account. */
  predicate Idle(w: World, key: string, accounts: set<Uuid>) {
    key !in w.claims && accounts !! w.rowLocks.Keys
  }

  lemma ArrivesUnobstructed(w: World, r: Rid, key: string, raw: RawBody, w1: World)
    requires r !in w.procs && Accepted(raw)
    requires Idle(w, key, if raw.RawTransfer? then {raw.source, raw.destination} else {})
    requires var a := Arrive(r, Call(key, Meaning(raw), Fingerprint(raw)));
             Enabled(w, a) && w1 == Step(w, a)
    ensures r in w1.procs && Unobstructed(w1, r) && w1.procs[r].phase.Received?
    ensures w1.db == w.db && w1.issued == w.issued && w1.procs[r].call == Call(key, Meaning(raw), Fingerprint(raw))
  {
    AnybodyMayAsk(w, r, key, raw);
    BodiesMeanWhatTheySay(raw);
  }

  /** The request is served from its arrival to its answer with nobody else moving. */
  lemma ServedByItself(w0: World, acts: seq<Action>, w: World, r: Rid, key: string, raw: RawBody, f: Fresh)
    returns (more: seq<Action>, w': World)
    requires Initial(w0) && Leads(w0, acts, w) && r !in w.procs && Accepted(raw)
    requires Idle(w, key, if raw.RawTransfer? then {raw.source, raw.destination} else {})
    requires Unused(w, f.resource, f.debit, f.credit)
    ensures Leads(w, more, w') && r in w'.procs
    ensures Apply(w.db, Call(key, Meaning(raw), Fingerprint(raw)), f).db == w'.db
    ensures w'.procs[r].phase == Finished(Apply(w.db, Call(key, Meaning(raw), Fingerprint(raw)), f).answer)
  {
    var call := Call(key, Meaning(raw), Fingerprint(raw));
    RunInv(w0, acts, w);
    AnybodyMayAsk(w, r, key, raw);
    var w1 := Step(w, Arrive(r, call));
    ArrivesUnobstructed(w, r, key, raw, w1);
    StepKeepsInv(w0.db, w, Arrive(r, call));
    hide Initial, Leads, Inv, Enabled, Step, Apply, Unobstructed;
    more, w' := AloneMeansSequential(w0.db, w1, r, true, f);
    OneStep(w, Arrive(r, call));
    OneAfterTheOther(w, [Arrive(r, call)], w1, more, w');
    more := [Arrive(r, call)] + more;
  }

  /** The answer and effect of a transfer of x from s to d, case by case, in terms of the tables. */
  ghost predicate TransferCases(
    db: Db, key: string, hash: string, s: Uuid, d: Uuid, x: int, f: Fresh, now: Db, answer: Answer)
  {
    if s !in db.accounts || d !in db.accounts then
      && now == db && answer.AccountNotFound?
      && answer.account in {s, d} && answer.account !in db.accounts
      && ({s, d} !! db.accounts.Keys ==> answer.account <= s && answer.account <= d)
    else if db.accounts[s].balance < x then
      now == db && answer == InsufficientFunds(s, db.accounts[s].balance, x)
    else if db.accounts[d].balance + x >= Pow(10, 20) then
      now == db && answer == AmountOutOfRange
    else
      var response := TransferResponse(f.resource, s, d, x, f.ts);
      && answer == Created(response)
      && now.accounts == db.accounts[s := db.accounts[s].(balance := db.accounts[s].balance - x)]
                                    [d := db.accounts[d].(balance := db.accounts[d].balance + x)]
      && now.entries == db.entries + [Entry(f.debit, f.resource, s, -x, f.ts), Entry(f.credit, f.resource, d, x, f.ts)]
      && now.keys == db.keys[key := KeyRecord(CreateTransfer, hash, Some(f.resource), Some(201), Some(response))]
  }

  lemma ApplyTransfers(db: Db, key: string, hash: string, s: Uuid, d: Uuid, x: int, f: Fresh)
    requires key !in db.keys && s != d
    ensures var reply := Apply(db, Call(key, Transfer(s, d, x), hash), f);
            TransferCases(db, key, hash, s, d, x, f, reply.db, reply.answer)
  {
    hide Pow;
    MaxMoneyIsTwentyNines();
  }

  /** An accepted transfer between two accounts that meets no other request, from its sending to its
      answer: the accounts, the direction and the amount are the ones the client wrote. */
  lemma TransferFromSendingToAnswer(
    w0: World, acts: seq<Action>, w: World, r: Rid, key: string, raw: RawBody, f: Fresh, x: int)
    returns (more: seq<Action>, w': World)
    requires Initial(w0) && Leads(w0, acts, w) && r !in w.procs && Accepted(raw) && raw.RawTransfer?
    requires Idle(w, key, {raw.source, raw.destination}) && Unused(w, f.resource, f.debit, f.credit)
    requires x >= 0 && IsUnits(raw.amount, x) && key !in w.db.keys && raw.source != raw.destination
    ensures Leads(w, more, w') && r in w'.procs && w'.procs[r].phase.Finished?
    ensures var RawTransfer(s, d, _) := raw;
            TransferCases(w.db, key, Fingerprint(raw), s, d, x, f, w'.db, w'.procs[r].phase.answer)
  {
    hide Initial, Leads, Apply, TransferCases, IsUnits, Fingerprint;
    more, w' := ServedByItself(w0, acts, w, r, key, raw, f);
    BodiesMeanWhatTheySay(raw);
    OneNumberOfUnits(raw.amount, x, Meaning(raw).amount);
    assert Meaning(raw) == Transfer(raw.source, raw.destination, x);
    ApplyTransfers(w.db, key, Fingerprint(raw), raw.source, raw.destination, x, f);
  }

  /** Likewise for a new account. */
  lemma AccountFromSendingToAnswer(
    w0: World, acts: seq<Action>, w: World, r: Rid, key: string, raw: RawBody, f: Fresh, x: nat)
    returns (more: seq<Action>, w': World)
    requires Initial(w0) && Leads(w0, acts, w) && r !in w.procs && Accepted(raw) && raw.RawCreate?
    requires Idle(w, key, {}) && Unused(w, f.resource, f.debit, f.credit)
    requires IsUnits(raw.initialBalance, x) && key !in w.db.keys
    ensures Leads(w, more, w') && r in w'.procs
    ensures w'.procs[r].phase == Finished(Created(AccountResponse(f.resource, x, f.ts)))
    ensures w'.db.accounts == w.db.accounts[f.resource := Account(x, x, f.ts)] && w'.db.entries == w.db.entries
    ensures w'.db.keys == w.db.keys[key := KeyRecord(CreateAccount, Fingerprint(raw), Some(f.resource),
                                                     Some(201), Some(AccountResponse(f.resource, x, f.ts)))]
  {
    more, w' := ServedByItself(w0, acts, w, r, key, raw, f);
    BodiesMeanWhatTheySay(raw);
    OneNumberOfUnits(raw.initialBalance, x, Meaning(raw).initialBalance);
  }

  lemma OneNumberOfUnits(d: Decimal, m: nat, n: nat)
    requires IsUnits(d, m) && IsUnits(d, n)
    ensures m == n
  {
    var lo := if d.exponent < -4 then d.exponent else -4;
    PowPositive(10, -4 - lo);
    CancelFactor(m, n, Pow(10, -4 - lo));
  }
}
