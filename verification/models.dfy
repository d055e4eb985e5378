/** The tables of the ledger (app/models.py) and the sums its invariants are stated with.
    Money is counted in units of 0.0001, the scale of NUMERIC(20, 4). */
module Models {

  const UUID_SPACE: int := 0x1_0000_0000_0000_0000_0000_0000_0000_0000

  /** A UUID, ordered as Python orders it: by its 128-bit value. */
  type Uuid = n: int | 0 <= n < UUID_SPACE

  /** The largest NUMERIC(20, 4), in units. */
  const MAX_MONEY: int := 9999_9999_9999_9999_9999

  datatype Option<+T> = None | Some(value: T)

  datatype Operation = CreateTransfer | CreateAccount

  datatype Response =
    | TransferResponse(transferId: Uuid, source: Uuid, destination: Uuid, amount: int, createdAt: int)
    | AccountResponse(id: Uuid, balance: int, createdAt: int)

  datatype Account = Account(balance: int, opening: int, createdAt: int)

  datatype Entry = Entry(id: Uuid, transferId: Uuid, accountId: Uuid, amount: int, createdAt: int)

  /** A row of idempotency_keys; the key itself is the table's index. */
  datatype KeyRecord = KeyRecord(
    operation: Operation, hash: string,
    resourceId: Option<Uuid>, status: Option<int>, body: Option<Response>)

  /** Everything that has been committed. Entries are kept in insertion order. */
  datatype Db = Db(accounts: map<Uuid, Account>, entries: seq<Entry>, keys: map<string, KeyRecord>)

  // ---------- Sums over the ledger ----------

  datatype Selection = All | OfAccount(account: Uuid) | OfTransfer(transfer: Uuid)

  predicate Picks(sel: Selection, e: Entry) {
    match sel
    case All => true
    case OfAccount(a) => e.accountId == a
    case OfTransfer(t) => e.transferId == t
  }

  function Sum(entries: seq<Entry>, sel: Selection): int {
    if entries == [] then 0
    else
      var e := entries[|entries| - 1];
      Sum(entries[..|entries| - 1], sel) + if Picks(sel, e) then e.amount else 0
  }

  lemma {:induction false} SumAppend(s: seq<Entry>, t: seq<Entry>, sel: Selection)
    ensures Sum(s + t, sel) == Sum(s, sel) + Sum(t, sel)
  {
    if t == [] {
      assert s + t == s;
    } else {
      assert (s + t)[..|s + t| - 1] == s + t[..|t| - 1];
      SumAppend(s, t[..|t| - 1], sel);
    }
  }

  lemma SumSnoc(s: seq<Entry>, e: Entry, sel: Selection)
    ensures Sum(s + [e], sel) == Sum(s, sel) + if Picks(sel, e) then e.amount else 0
  {
    assert (s + [e])[..|s|] == s;
  }

  lemma SumPair(s: seq<Entry>, a: Entry, b: Entry, sel: Selection)
    ensures Sum(s + [a, b], sel)
         == Sum(s, sel) + (if Picks(sel, a) then a.amount else 0) + (if Picks(sel, b) then b.amount else 0)
  {
    assert s + [a, b] == s + [a] + [b];
    SumSnoc(s + [a], b, sel);
    SumSnoc(s, a, sel);
  }

  lemma {:induction false} SumOfNothing(s: seq<Entry>, sel: Selection)
    requires forall i | 0 <= i < |s| :: !Picks(sel, s[i])
    ensures Sum(s, sel) == 0
  {
    if s != [] {
      SumOfNothing(s[..|s| - 1], sel);
    }
  }

  // ---------- The shape of a committed ledger ----------

  /** The two rows of one transfer: a debit, then the credit that cancels it. */
  predicate Legs(a: Entry, b: Entry) {
    && a.transferId == b.transferId
    && a.accountId != b.accountId
    && a.id != b.id
    && a.amount < 0
    && b.amount == -a.amount
    && a.createdAt == b.createdAt
  }

  predicate Avoids(s: seq<Entry>, transferId: Uuid, id1: Uuid, id2: Uuid) {
    forall i | 0 <= i < |s| :: s[i].transferId != transferId && s[i].id != id1 && s[i].id != id2
  }

  /** Every transfer wrote exactly two rows, sharing an id that no other transfer has. */
  predicate Paired(s: seq<Entry>)
    decreases |s|
  {
    s == [] ||
    (&& |s| >= 2
     && Legs(s[|s| - 2], s[|s| - 1])
     && Avoids(s[..|s| - 2], s[|s| - 1].transferId, s[|s| - 2].id, s[|s| - 1].id)
     && Paired(s[..|s| - 2]))
  }

  lemma PairedAppend(s: seq<Entry>, a: Entry, b: Entry)
    requires Paired(s) && Legs(a, b) && Avoids(s, a.transferId, a.id, b.id)
    ensures Paired(s + [a, b])
  {
    assert (s + [a, b])[..|s|] == s;
  }

  lemma {:induction false} PairedSums(s: seq<Entry>, t: Uuid)
    requires Paired(s)
    ensures Sum(s, OfTransfer(t)) == 0 && Sum(s, All) == 0
    decreases |s|
  {
    if s != [] {
      var p := s[..|s| - 2];
      PairedSums(p, t);
      assert s == p + [s[|s| - 2], s[|s| - 1]];
      SumPair(p, s[|s| - 2], s[|s| - 1], OfTransfer(t));
      SumPair(p, s[|s| - 2], s[|s| - 1], All);
    }
  }

  /** The balance column caches the entries: balance = opening_balance + SUM(my entries). */
  ghost predicate CacheHonest(db: Db) {
    forall id | id in db.accounts ::
      db.accounts[id].balance == db.accounts[id].opening + Sum(db.entries, OfAccount(id))
  }

  /** Column types and CHECK constraints of the accounts table. */
  ghost predicate InBounds(db: Db) {
    forall id | id in db.accounts ::
      0 <= db.accounts[id].balance <= MAX_MONEY && 0 <= db.accounts[id].opening <= MAX_MONEY
  }

  ghost predicate ForeignKeys(db: Db) {
    forall i | 0 <= i < |db.entries| :: db.entries[i].accountId in db.accounts
  }

  /** A committed key row always has its response filled in. */
  ghost predicate KeysComplete(db: Db) {
    forall k | k in db.keys ::
      db.keys[k].resourceId.Some? && db.keys[k].status == Some(201) && db.keys[k].body.Some?
  }

  /** The invariants app/models.py states over the three tables. */
  ghost predicate LedgerOk(db: Db) {
    Paired(db.entries) && CacheHonest(db) && InBounds(db) && ForeignKeys(db) && KeysComplete(db)
  }

  lemma WithoutOne<T>(s: seq<T>, k: nat)
    requires k < |s|
    ensures multiset(s[..k] + s[k + 1..]) == multiset(s) - multiset{s[k]}
  {
    assert s == s[..k] + [s[k]] + s[k + 1..];
  }

  // ---------- Totals over the accounts table ----------

  lemma {:induction false} SubsetIsSmaller<T>(a: set<T>, b: set<T>)
    requires a <= b
    ensures |a| <= |b|
  {
    if a != {} {
      var x :| x in a;
      SubsetIsSmaller(a - {x}, b - {x});
    }
  }

  ghost function Total<K>(m: map<K, int>): int {
    if m == map[] then 0
    else
      var k :| k in m;
      m[k] + Total(m - {k})
  }

  lemma {:induction false} TotalWithout<K>(m: map<K, int>, k: K)
    requires k in m
    ensures Total(m) == m[k] + Total(m - {k})
    decreases |m|
  {
    var c :| c in m && Total(m) == m[c] + Total(m - {c});
    if c != k {
      assert |m - {c}| < |m| by { assert (m - {c}).Keys == m.Keys - {c}; }
      assert |m - {k}| < |m| by { assert (m - {k}).Keys == m.Keys - {k}; }
      TotalWithout(m - {c}, k);
      TotalWithout(m - {k}, c);
      assert m - {c} - {k} == m - {k} - {c};
    }
  }

  lemma TotalUpdate<K>(m: map<K, int>, k: K, v: int)
    ensures Total(m[k := v]) == Total(m) + v - if k in m then m[k] else 0
  {
    TotalWithout(m[k := v], k);
    assert m[k := v] - {k} == m - {k};
    if k in m {
      TotalWithout(m, k);
    } else {
      assert (m - {k}).Keys == m.Keys;
      assert m - {k} == m;
    }
  }

  lemma {:induction false} TotalNonNegative<K>(m: map<K, int>)
    requires forall i | i in m :: m[i] >= 0
    ensures Total(m) >= 0
    decreases |m|
  {
    if m != map[] {
      var k :| k in m;
      TotalWithout(m, k);
      assert |m - {k}| < |m| by { assert (m - {k}).Keys == m.Keys - {k}; }
      TotalNonNegative(m - {k});
    }
  }

  ghost function Balances(db: Db): map<Uuid, int> {
    map id | id in db.accounts :: db.accounts[id].balance
  }

  ghost function Openings(db: Db): map<Uuid, int> {
    map id | id in db.accounts :: db.accounts[id].opening
  }

  /** The money each key brought in. */
  ghost function KeyMints(db: Db): map<string, int> {
    map k | k in db.keys ::
      match db.keys[k].body
      case Some(AccountResponse(_, balance, _)) => balance
      case _ => 0
  }

  ghost function TotalBalance(db: Db): int {
    Total<Uuid>(Balances(db))
  }

  ghost function TotalOpening(db: Db): int {
    Total<Uuid>(Openings(db))
  }

  ghost function TotalMinted(db: Db): int {
    Total<string>(KeyMints(db))
  }

  ghost function CachedSums(db: Db, n: nat): map<Uuid, int>
    requires n <= |db.entries|
  {
    map id | id in db.accounts :: db.accounts[id].opening + Sum(db.entries[..n], OfAccount(id))
  }

  lemma {:induction false} TotalOfSums(db: Db, n: nat)
    requires ForeignKeys(db) && n <= |db.entries|
    ensures Total<Uuid>(CachedSums(db, n)) == TotalOpening(db) + Sum(db.entries[..n], All)
  {
    if n == 0 {
      assert CachedSums(db, 0) == Openings(db);
    } else {
      TotalOfSums(db, n - 1);
      var e := db.entries[n - 1];
      assert db.entries[..n][..n - 1] == db.entries[..n - 1];
      var before := CachedSums(db, n - 1);
      assert CachedSums(db, n) == before[e.accountId := before[e.accountId] + e.amount];
      TotalUpdate<Uuid>(before, e.accountId, before[e.accountId] + e.amount);
    }
  }

  /** Conservation: entries net to zero, so all the money there is was once opened. */
  lemma MoneyIsConserved(db: Db)
    requires LedgerOk(db)
    ensures Sum(db.entries, All) == 0
    ensures forall t :: Sum(db.entries, OfTransfer(t)) == 0
    ensures TotalBalance(db) == TotalOpening(db)
  {
    forall t ensures Sum(db.entries, OfTransfer(t)) == 0 {
      PairedSums(db.entries, t);
    }
    PairedSums(db.entries, 0);
    CacheTotals(db);
  }

  lemma CacheTotals(db: Db)
    requires CacheHonest(db) && ForeignKeys(db)
    ensures TotalBalance(db) == TotalOpening(db) + Sum(db.entries, All)
  {
    TotalOfSums(db, |db.entries|);
    assert db.entries[..|db.entries|] == db.entries;
    assert CachedSums(db, |db.entries|) == Balances(db);
  }
}
