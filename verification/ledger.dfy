/** The sequential ledger: what one request does when it has the database to itself. This is the
    reference every interleaving of the real protocol is measured against. */
module Ledger {
  import opened Models
  import opened Requests

  /** What the client is told: 201, 200, or the error code. */
  datatype Answer =
    | Created(response: Response)
    | Replayed(body: Option<Response>)
    | KeyConflict(operation: Operation)
    | AccountNotFound(account: Uuid)
    | InsufficientFunds(account: Uuid, balance: int, requested: int)
    | AmountOutOfRange
    | SameAccountTransfer
    | LockTimeout
    | InternalError

  /** The values a transaction draws from outside: its timestamp and the uuids it generates. */
  datatype Fresh = Fresh(ts: int, resource: Uuid, debit: Uuid, credit: Uuid)

  datatype Reply = Reply(db: Db, answer: Answer)

  /** Answers from a stored record, or refuses if the key was recycled. */
  function Replay(record: KeyRecord, call: Call): Answer {
    if record.operation != OperationOf(call.body) || record.hash != call.hash
    then KeyConflict(record.operation)
    else Replayed(record.body)
  }

  function ResponseTo(body: Body, f: Fresh): Response {
    match body
    case Transfer(s, d, amount) => TransferResponse(f.resource, s, d, amount, f.ts)
    case Create(balance) => AccountResponse(f.resource, balance, f.ts)
  }

  function RecordOf(call: Call, f: Fresh): KeyRecord {
    KeyRecord(OperationOf(call.body), call.hash, Some(f.resource), Some(201), Some(ResponseTo(call.body, f)))
  }

  function LegsOf(source: Uuid, destination: Uuid, amount: int, f: Fresh): seq<Entry> {
    [Entry(f.debit, f.resource, source, -amount, f.ts), Entry(f.credit, f.resource, destination, amount, f.ts)]
  }

  function Adjust(accounts: map<Uuid, Account>, id: Uuid, amount: int): map<Uuid, Account>
    requires id in accounts
  {
    accounts[id := accounts[id].(balance := accounts[id].balance + amount)]
  }

  function Moved(db: Db, call: Call, f: Fresh): Db
    requires call.body.Transfer? && call.body.source in db.accounts && call.body.destination in db.accounts
  {
    var Transfer(s, d, amount) := call.body;
    Db(Adjust(Adjust(db.accounts, s, -amount), d, amount),
       db.entries + LegsOf(s, d, amount, f),
       db.keys[call.key := RecordOf(call, f)])
  }

  function Opened(db: Db, call: Call, f: Fresh): Db
    requires call.body.Create?
  {
    var balance := call.body.initialBalance;
    Db(db.accounts[f.resource := Account(balance, balance, f.ts)],
       db.entries,
       db.keys[call.key := RecordOf(call, f)])
  }

  /** The answer and effect of one request, with the service's order of precedence. */
  function Apply(db: Db, call: Call, f: Fresh): Reply {
    if SameAccount(call.body) then Reply(db, SameAccountTransfer)
    else if call.key in db.keys then Reply(db, Replay(db.keys[call.key], call))
    else match call.body
      case Create(_) => Reply(Opened(db, call, f), Created(ResponseTo(call.body, f)))
      case Transfer(s, d, amount) =>
        if s !in db.accounts && (d in db.accounts || s < d) then Reply(db, AccountNotFound(s))
        else if d !in db.accounts then Reply(db, AccountNotFound(d))
        else if db.accounts[s].balance < amount then
          Reply(db, InsufficientFunds(s, db.accounts[s].balance, amount))
        else if db.accounts[d].balance + amount > MAX_MONEY then Reply(db, AmountOutOfRange)
        else Reply(Moved(db, call, f), Created(ResponseTo(call.body, f)))
  }

  /** The generated uuids are new to the tables they are inserted in. */
  ghost predicate FreshFor(db: Db, f: Fresh) {
    f.resource !in db.accounts && f.debit != f.credit && Avoids(db.entries, f.resource, f.debit, f.credit)
  }

  lemma MovedKeepsCacheHonest(db: Db, call: Call, f: Fresh)
    requires CacheHonest(db) && call.body.Transfer? && !SameAccount(call.body)
    requires call.body.source in db.accounts && call.body.destination in db.accounts
    ensures CacheHonest(Moved(db, call, f))
  {
    var Transfer(s, d, amount) := call.body;
    var next := Moved(db, call, f);
    var legs := LegsOf(s, d, amount, f);
    assert next.entries == db.entries + [legs[0], legs[1]];
    forall id | id in next.accounts
      ensures next.accounts[id].balance == next.accounts[id].opening + Sum(next.entries, OfAccount(id))
    {
      SumPair(db.entries, legs[0], legs[1], OfAccount(id));
    }
  }

  lemma MovedKeepsLedgerOk(db: Db, call: Call, f: Fresh)
    requires LedgerOk(db) && FreshFor(db, f) && ValidBody(call.body)
    requires call.body.Transfer? && !SameAccount(call.body)
    requires call.body.source in db.accounts && call.body.destination in db.accounts
    requires db.accounts[call.body.source].balance >= call.body.amount
    requires db.accounts[call.body.destination].balance + call.body.amount <= MAX_MONEY
    ensures LedgerOk(Moved(db, call, f))
  {
    var Transfer(s, d, amount) := call.body;
    var legs := LegsOf(s, d, amount, f);
    PairedAppend(db.entries, legs[0], legs[1]);
    assert Moved(db, call, f).entries == db.entries + [legs[0], legs[1]];
    MovedKeepsCacheHonest(db, call, f);
    hide CacheHonest, Paired;
  }

  lemma OpenedKeepsLedgerOk(db: Db, call: Call, f: Fresh)
    requires LedgerOk(db) && FreshFor(db, f) && ValidBody(call.body) && call.body.Create?
    ensures LedgerOk(Opened(db, call, f))
  {
    SumOfNothing(db.entries, OfAccount(f.resource));
  }

  /** Every request keeps the invariants of the three tables. */
  lemma ApplyKeepsLedgerOk(db: Db, call: Call, f: Fresh)
    requires LedgerOk(db) && ValidBody(call.body)
    requires Apply(db, call, f).answer.Created? ==> FreshFor(db, f)
    ensures LedgerOk(Apply(db, call, f).db)
  {
    if Apply(db, call, f).answer.Created? {
      if call.body.Transfer? {
        MovedKeepsLedgerOk(db, call, f);
      } else {
        OpenedKeepsLedgerOk(db, call, f);
      }
    }
  }

  /** Nothing is ever deleted: accounts stay, entries are appended, key rows are immutable. */
  ghost predicate Extends(old': Db, new': Db) {
    && (forall k | k in old'.keys :: k in new'.keys && new'.keys[k] == old'.keys[k])
    && old'.accounts.Keys <= new'.accounts.Keys
    && old'.entries <= new'.entries
  }

  lemma ApplyExtends(db: Db, call: Call, f: Fresh)
    ensures Extends(db, Apply(db, call, f).db)
  {
  }

  lemma ApplyStoresTheRecord(db: Db, call: Call, f: Fresh)
    requires Apply(db, call, f).answer.Created?
    ensures call.key !in db.keys && !SameAccount(call.body)
    ensures Apply(db, call, f).answer == Created(ResponseTo(call.body, f))
    ensures Apply(db, call, f).db.keys == db.keys[call.key := RecordOf(call, f)]
  {
  }

  lemma ApplyChangesNothingElse(db: Db, call: Call, f: Fresh)
    requires !Apply(db, call, f).answer.Created?
    ensures Apply(db, call, f).db == db
  {
  }

  /** How much new money a request with this answer brings in. */
  function MintedBy(call: Call, answer: Answer): int {
    if answer.Created? && call.body.Create? then call.body.initialBalance else 0
  }

  /** Total value moves only when an account is opened, by its opening balance. */
  lemma ApplyConservesMoney(db: Db, call: Call, f: Fresh)
    requires Apply(db, call, f).answer.Created? ==> FreshFor(db, f)
    ensures var r := Apply(db, call, f);
            TotalBalance(r.db) == TotalBalance(db) + MintedBy(call, r.answer)
  {
    var r := Apply(db, call, f);
    if !r.answer.Created? {
      ApplyChangesNothingElse(db, call, f);
    } else if call.body.Transfer? {
      MovingConservesMoney(db, call, f);
    } else {
      TotalUpdate<Uuid>(Balances(db), f.resource, call.body.initialBalance);
      assert Balances(r.db) == Balances(db)[f.resource := call.body.initialBalance];
    }
  }

  lemma AdjustingMovesTheTotal(db: Db, id: Uuid, amount: int)
    requires id in db.accounts
    ensures TotalBalance(db.(accounts := Adjust(db.accounts, id, amount))) == TotalBalance(db) + amount
  {
    var b := Balances(db);
    TotalUpdate<Uuid>(b, id, b[id] + amount);
    assert Balances(db.(accounts := Adjust(db.accounts, id, amount))) == b[id := b[id] + amount];
  }

  lemma MovingConservesMoney(db: Db, call: Call, f: Fresh)
    requires call.body.Transfer? && call.body.source in db.accounts && call.body.destination in db.accounts
    ensures TotalBalance(Moved(db, call, f)) == TotalBalance(db)
  {
    var Transfer(s, d, amount) := call.body;
    var debited := db.(accounts := Adjust(db.accounts, s, -amount));
    AdjustingMovesTheTotal(db, s, -amount);
    AdjustingMovesTheTotal(debited, d, amount);
    assert Balances(Moved(db, call, f)) == Balances(debited.(accounts := Adjust(debited.accounts, d, amount)));
  }

  // ---------- Partway through a transfer ----------

  /** The tables after the first n writes of a transfer, were they visible: the source's balance, the
      destination's balance, the debit row, the credit row, and the key's record. */
  function Staged(db: Db, call: Call, f: Fresh, n: nat): Db
    requires call.body.Transfer? && call.body.source in db.accounts && call.body.destination in db.accounts
  {
    var Transfer(s, d, amount) := call.body;
    var debited := if n >= 1 then Adjust(db.accounts, s, -amount) else db.accounts;
    Db(if n >= 2 then Adjust(debited, d, amount) else debited,
       db.entries + LegsOf(s, d, amount, f)[..if n <= 2 then 0 else if n == 3 then 1 else 2],
       if n >= 5 then db.keys[call.key := RecordOf(call, f)] else db.keys)
  }

  lemma StagedEnds(db: Db, call: Call, f: Fresh)
    requires call.body.Transfer? && call.body.source in db.accounts && call.body.destination in db.accounts
    ensures Staged(db, call, f, 0) == db && Staged(db, call, f, 5) == Moved(db, call, f)
  {
    var legs := LegsOf(call.body.source, call.body.destination, call.body.amount, f);
    assert db.entries + legs[..0] == db.entries && legs[..2] == legs;
  }

  lemma StagedSums(db: Db, call: Call, f: Fresh, n: nat, sel: Selection)
    requires call.body.Transfer? && call.body.source in db.accounts && call.body.destination in db.accounts
    ensures var Transfer(s, d, amount) := call.body;
            var legs := LegsOf(s, d, amount, f);
            Sum(Staged(db, call, f, n).entries, sel)
            == Sum(db.entries, sel) + (if n >= 3 && Picks(sel, legs[0]) then -amount else 0)
                                    + (if n >= 4 && Picks(sel, legs[1]) then amount else 0)
  {
    var Transfer(s, d, amount) := call.body;
    var legs := LegsOf(s, d, amount, f);
    if n <= 2 {
      assert db.entries + legs[..0] == db.entries;
    } else if n == 3 {
      assert legs[..1] == [legs[0]];
      SumSnoc(db.entries, legs[0], sel);
    } else {
      assert legs[..2] == [legs[0], legs[1]];
      SumPair(db.entries, legs[0], legs[1], sel);
    }
  }

  lemma StagedCaches(db: Db, call: Call, f: Fresh, n: nat)
    requires CacheHonest(db) && ValidBody(call.body) && call.body.Transfer? && !SameAccount(call.body)
    requires call.body.source in db.accounts && call.body.destination in db.accounts
    ensures CacheHonest(Staged(db, call, f, n)) <==> n == 0 || n >= 4
  {
    var Transfer(s, d, amount) := call.body;
    var now := Staged(db, call, f, n);
    forall id | id in now.accounts
      ensures now.accounts[id].balance == now.accounts[id].opening + Sum(now.entries, OfAccount(id))
         <==> (id == s ==> n == 0 || n >= 3) && (id == d ==> n <= 1 || n >= 4)
    {
      StagedSums(db, call, f, n, OfAccount(id));
    }
    assert s in now.accounts && d in now.accounts;
  }

  lemma StagedTotals(db: Db, call: Call, f: Fresh, n: nat)
    requires call.body.Transfer? && call.body.source in db.accounts && call.body.destination in db.accounts
    ensures TotalBalance(Staged(db, call, f, n)) == TotalBalance(db) - if n == 1 then call.body.amount else 0
  {
    var Transfer(s, d, amount) := call.body;
    var now := Staged(db, call, f, n);
    if n == 0 {
      assert now.accounts == db.accounts;
    } else if n == 1 {
      AdjustingMovesTheTotal(db, s, -amount);
      assert Balances(now) == Balances(db.(accounts := Adjust(db.accounts, s, -amount)));
    } else {
      MovingConservesMoney(db, call, f);
      assert Balances(now) == Balances(Moved(db, call, f));
    }
  }

  /** Which writes of a transfer break which invariant while they are incomplete: the caches are wrong
      from the first write until the last row is in, the entries fail to cancel only between the two
      rows, money is missing only between the two balances, and all five writes together are the
      transfer. This is why they become visible at one commit. */
  lemma PartwayTheLedgerIsBroken(db: Db, call: Call, f: Fresh, n: nat)
    requires LedgerOk(db) && FreshFor(db, f) && ValidBody(call.body)
    requires call.body.Transfer? && !SameAccount(call.body)
    requires call.body.source in db.accounts && call.body.destination in db.accounts
    ensures var now, amount := Staged(db, call, f, n), call.body.amount;
            && (CacheHonest(now) <==> n == 0 || n >= 4)
            && Sum(now.entries, OfTransfer(f.resource)) == (if n == 3 then -amount else 0)
            && Sum(now.entries, All) == (if n == 3 then -amount else 0)
            && TotalBalance(now) == TotalBalance(db) - (if n == 1 then amount else 0)
    ensures Staged(db, call, f, 0) == db && Staged(db, call, f, 5) == Moved(db, call, f)
  {
    hide Staged, Moved, CacheHonest, Paired;
    StagedEnds(db, call, f);
    StagedCaches(db, call, f, n);
    StagedTotals(db, call, f, n);
    StagedSums(db, call, f, n, All);
    StagedSums(db, call, f, n, OfTransfer(f.resource));
    MoneyIsConserved(db);
  }
}
