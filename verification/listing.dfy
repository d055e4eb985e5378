/** The transaction list of an account (list_transactions in app/services/accounts.py): a self-join
    that recovers the other side of each transfer, newest first, at most a hundred. */
module Listing {
  import opened Models

  const MAX_TRANSACTIONS: nat := 100

  /** A row of the join, with the id that breaks ties between timestamps. */
  datatype Row = Row(entryId: Uuid, transferId: Uuid, amount: int, createdAt: int, counterparty: Uuid)

  datatype Direction = Debit | Credit

  datatype Item = Item(transferId: Uuid, amount: int, direction: Direction, counterparty: Uuid, createdAt: int)

  datatype Result = Unknown(account: Uuid) | Items(items: seq<Item>)

  // ---------- The query ----------

  function RowOf(mine: Entry, theirs: Entry): Row {
    Row(mine.id, mine.transferId, mine.amount, mine.createdAt, theirs.accountId)
  }

  /** JOIN theirs ON theirs.transfer_id = mine.transfer_id AND theirs.id != mine.id */
  function JoinOne(mine: Entry, entries: seq<Entry>): seq<Row> {
    if entries == [] then []
    else
      var theirs := entries[|entries| - 1];
      JoinOne(mine, entries[..|entries| - 1])
      + if theirs.transferId == mine.transferId && theirs.id != mine.id then [RowOf(mine, theirs)] else []
  }

  /** ... WHERE mine.account_id = account */
  function Join(mine: seq<Entry>, entries: seq<Entry>, account: Uuid): seq<Row> {
    if mine == [] then []
    else
      var e := mine[|mine| - 1];
      Join(mine[..|mine| - 1], entries, account) + if e.accountId == account then JoinOne(e, entries) else []
  }

  /** ORDER BY created_at DESC, id DESC */
  predicate Newer(a: Row, b: Row) {
    a.createdAt > b.createdAt || (a.createdAt == b.createdAt && a.entryId > b.entryId)
  }

  function Insert(r: Row, sorted: seq<Row>): seq<Row> {
    if sorted == [] || !Newer(sorted[0], r) then [r] + sorted
    else [sorted[0]] + Insert(r, sorted[1..])
  }

  function Sort(rows: seq<Row>): seq<Row> {
    if rows == [] then [] else Insert(rows[|rows| - 1], Sort(rows[..|rows| - 1]))
  }

  function ItemOf(r: Row): Item {
    Item(r.transferId, r.amount, if r.amount < 0 then Debit else Credit, r.counterparty, r.createdAt)
  }

  function ItemsOf(rows: seq<Row>): seq<Item> {
    if rows == [] then [] else ItemsOf(rows[..|rows| - 1]) + [ItemOf(rows[|rows| - 1])]
  }

  function Limit(rows: seq<Row>): seq<Row> {
    if |rows| <= MAX_TRANSACTIONS then rows else rows[..MAX_TRANSACTIONS]
  }

  function ListTransactions(db: Db, account: Uuid): Result {
    if account !in db.accounts then Unknown(account)
    else Items(ItemsOf(Limit(Sort(Join(db.entries, db.entries, account)))))
  }

  // ---------- The join recovers the transfers ----------

  /** The transfers an account took part in, read off the pairs the ledger consists of. */
  function TransfersOf(s: seq<Entry>, account: Uuid): seq<Row>
    requires Paired(s)
    decreases |s|
  {
    if s == [] then []
    else TransfersOf(s[..|s| - 2], account) + SideOf(s[|s| - 2], s[|s| - 1], account)
  }

  /** One transfer as the account sees it, if it took part. */
  function SideOf(debit: Entry, credit: Entry, account: Uuid): seq<Row> {
    if debit.accountId == account then [RowOf(debit, credit)]
    else if credit.accountId == account then [RowOf(credit, debit)]
    else []
  }

  /** The last transfer of a non-empty ledger, and the ledger before it. */
  lemma LastPair(s: seq<Entry>, account: Uuid) returns (p: seq<Entry>, a: Entry, b: Entry)
    requires Paired(s) && s != []
    ensures s == p + [a, b] && Paired(p) && |p| < |s| && Legs(a, b) && Avoids(p, a.transferId, a.id, b.id)
    ensures TransfersOf(s, account) == TransfersOf(p, account) + SideOf(a, b, account)
  {
    p, a, b := s[..|s| - 2], s[|s| - 2], s[|s| - 1];
  }

  lemma {:induction false} JoinOneAppend(mine: Entry, s: seq<Entry>, t: seq<Entry>)
    ensures JoinOne(mine, s + t) == JoinOne(mine, s) + JoinOne(mine, t)
  {
    if t == [] {
      assert s + t == s;
    } else {
      assert (s + t)[..|s + t| - 1] == s + t[..|t| - 1];
      JoinOneAppend(mine, s, t[..|t| - 1]);
    }
  }

  lemma {:induction false} JoinAppend(s: seq<Entry>, t: seq<Entry>, entries: seq<Entry>, account: Uuid)
    ensures Join(s + t, entries, account) == Join(s, entries, account) + Join(t, entries, account)
  {
    if t == [] {
      assert s + t == s;
    } else {
      assert (s + t)[..|s + t| - 1] == s + t[..|t| - 1];
      JoinAppend(s, t[..|t| - 1], entries, account);
    }
  }

  lemma {:induction false} NoPartner(mine: Entry, s: seq<Entry>)
    requires forall i | 0 <= i < |s| :: s[i].transferId != mine.transferId
    ensures JoinOne(mine, s) == []
  {
    if s != [] {
      NoPartner(mine, s[..|s| - 1]);
    }
  }

  lemma JoinOneOfPair(mine: Entry, a: Entry, b: Entry)
    ensures JoinOne(mine, [a, b])
         == (if a.transferId == mine.transferId && a.id != mine.id then [RowOf(mine, a)] else [])
          + (if b.transferId == mine.transferId && b.id != mine.id then [RowOf(mine, b)] else [])
  {
    assert [a, b][..1] == [a] && [a][..0] == [];
    assert JoinOne(mine, [a]) == if a.transferId == mine.transferId && a.id != mine.id then [RowOf(mine, a)] else [];
  }

  /** Rows of other transfers add nothing to the join. */
  lemma {:induction false} JoinIgnoresStrangers(mine: seq<Entry>, s: seq<Entry>, a: Entry, b: Entry, account: Uuid)
    requires a.transferId == b.transferId
    requires forall i | 0 <= i < |mine| :: mine[i].transferId != a.transferId
    ensures Join(mine, s + [a, b], account) == Join(mine, s, account)
  {
    if mine != [] {
      var e := mine[|mine| - 1];
      JoinIgnoresStrangers(mine[..|mine| - 1], s, a, b, account);
      JoinOneAppend(e, s, [a, b]);
      JoinOneOfPair(e, a, b);
    }
  }

  lemma JoinOfPair(s: seq<Entry>, a: Entry, b: Entry, account: Uuid)
    requires Legs(a, b) && Avoids(s, a.transferId, a.id, b.id)
    ensures Join([a, b], s + [a, b], account)
         == SideOf(a, b, account)
  {
    NoPartner(a, s);
    NoPartner(b, s);
    JoinOneAppend(a, s, [a, b]);
    JoinOneAppend(b, s, [a, b]);
    JoinOneOfPair(a, a, b);
    JoinOneOfPair(b, a, b);
    assert [a, b][..1] == [a] && [a][..0] == [];
    assert Join([a], s + [a, b], account) == if a.accountId == account then [RowOf(a, b)] else [];
  }

  /** On a ledger the protocol wrote, the self-join gives exactly one row for each transfer of the
      account, with the other leg's account as its counterparty. */
  lemma {:induction false} JoinRecoversTransfers(s: seq<Entry>, account: Uuid)
    requires Paired(s)
    ensures Join(s, s, account) == TransfersOf(s, account)
    decreases |s|
  {
    if s != [] {
      var p, a, b := LastPair(s, account);
      hide Paired, TransfersOf, Join;
      JoinRecoversTransfers(p, account);
      JoinAppend(p, [a, b], s, account);
      JoinIgnoresStrangers(p, p, a, b, account);
      JoinOfPair(p, a, b, account);
    }
  }

  function RowTotal(rows: seq<Row>): int {
    if rows == [] then 0 else RowTotal(rows[..|rows| - 1]) + rows[|rows| - 1].amount
  }

  lemma RowTotalAppend(rows: seq<Row>, side: seq<Row>)
    requires |side| <= 1
    ensures RowTotal(rows + side) == RowTotal(rows) + if side == [] then 0 else side[0].amount
  {
    if side == [] {
      assert rows + side == rows;
    } else {
      assert (rows + side)[..|rows|] == rows;
    }
  }

  lemma PairTotal(p: seq<Entry>, a: Entry, b: Entry, account: Uuid)
    requires Legs(a, b)
    ensures var side := SideOf(a, b, account);
            |side| <= 1
            && Sum(p + [a, b], OfAccount(account))
               == Sum(p, OfAccount(account)) + if side == [] then 0 else side[0].amount
  {
    SumPair(p, a, b, OfAccount(account));
  }

  lemma {:induction false} TransfersTotal(s: seq<Entry>, account: Uuid)
    requires Paired(s)
    ensures RowTotal(TransfersOf(s, account)) == Sum(s, OfAccount(account))
    decreases |s|
  {
    if s != [] {
      var p, a, b := LastPair(s, account);
      hide Paired, TransfersOf, Sum, RowTotal, Avoids, SideOf;
      TransfersTotal(p, account);
      PairTotal(p, a, b, account);
      RowTotalAppend(TransfersOf(p, account), SideOf(a, b, account));
    }
  }

  /** An account's uncapped history explains its balance. */
  lemma HistoryExplainsBalance(db: Db, account: Uuid)
    requires LedgerOk(db) && account in db.accounts
    ensures db.accounts[account].balance
         == db.accounts[account].opening + RowTotal(Join(db.entries, db.entries, account))
  {
    JoinRecoversTransfers(db.entries, account);
    TransfersTotal(db.entries, account);
  }

  lemma {:induction false} TransfersMirror(s: seq<Entry>, account: Uuid, i: nat) returns (j: nat)
    requires Paired(s) && i < |TransfersOf(s, account)|
    ensures var mine := TransfersOf(s, account)[i];
            && j < |TransfersOf(s, mine.counterparty)|
            && mine.counterparty != account
            && Mirrors(mine, account, TransfersOf(s, mine.counterparty)[j])
    decreases |s|
  {
    var p := s[..|s| - 2];
    if i < |TransfersOf(p, account)| {
      j := TransfersMirror(p, account, i);
      assert TransfersOf(p, account)[i] == TransfersOf(s, account)[i];
    } else {
      j := |TransfersOf(p, TransfersOf(s, account)[i].counterparty)|;
    }
  }

  /** The other side's row of the account's row. */
  predicate Mirrors(mine: Row, account: Uuid, theirs: Row) {
    && theirs.transferId == mine.transferId && theirs.amount == -mine.amount
    && theirs.counterparty == account && theirs.createdAt == mine.createdAt
  }

  /** The two sides of a transfer list it with negated amounts and name each other. */
  lemma BothSidesAgree(s: seq<Entry>, account: Uuid, i: nat) returns (j: nat)
    requires Paired(s) && i < |Join(s, s, account)|
    ensures var mine := Join(s, s, account)[i];
            && mine.counterparty != account
            && j < |Join(s, s, mine.counterparty)|
            && Mirrors(mine, account, Join(s, s, mine.counterparty)[j])
  {
    JoinRecoversTransfers(s, account);
    JoinRecoversTransfers(s, Join(s, s, account)[i].counterparty);
    j := TransfersMirror(s, account, i);
  }

  /** The account's own entries. */
  function Mine(s: seq<Entry>, account: Uuid): seq<Entry> {
    if s == [] then []
    else Mine(s[..|s| - 1], account) + if s[|s| - 1].accountId == account then [s[|s| - 1]] else []
  }

  predicate RowFor(row: Row, mine: Entry) {
    row.entryId == mine.id && row.transferId == mine.transferId
    && row.amount == mine.amount && row.createdAt == mine.createdAt
  }

  /** The rows are the entries', one each, in order. */
  predicate OneRowEach(rows: seq<Row>, mine: seq<Entry>) {
    |rows| == |mine| && forall i | 0 <= i < |rows| :: RowFor(rows[i], mine[i])
  }

  lemma MineOfPair(p: seq<Entry>, a: Entry, b: Entry, account: Uuid)
    requires Legs(a, b)
    ensures Mine(p + [a, b], account)
         == Mine(p, account) + if a.accountId == account then [a] else if b.accountId == account then [b] else []
  {
    assert (p + [a, b])[..|p| + 1] == p + [a];
    assert (p + [a])[..|p|] == p;
  }

  /** The join has exactly one row for each entry of the account: it drops none, repeats none, and
      invents none. */
  lemma {:induction false} JoinHasOneRowPerEntry(s: seq<Entry>, account: Uuid)
    requires Paired(s)
    ensures OneRowEach(Join(s, s, account), Mine(s, account))
    decreases |s|
  {
    JoinRecoversTransfers(s, account);
    if s != [] {
      var p, a, b := LastPair(s, account);
      hide Paired, TransfersOf, Join, Mine;
      JoinHasOneRowPerEntry(p, account);
      JoinRecoversTransfers(p, account);
      MineOfPair(p, a, b, account);
    }
  }

  // ---------- The order is canonical ----------

  ghost predicate Descending(rows: seq<Row>) {
    forall i, j | 0 <= i < j < |rows| :: Newer(rows[i], rows[j])
  }

  ghost predicate DistinctIds(rows: seq<Row>) {
    forall i, j | 0 <= i < j < |rows| :: rows[i].entryId != rows[j].entryId
  }

  lemma {:induction false} InsertKeepsRows(r: Row, sorted: seq<Row>)
    ensures multiset(Insert(r, sorted)) == multiset(sorted) + multiset{r}
  {
    if sorted == [] || !Newer(sorted[0], r) {
    } else {
      InsertKeepsRows(r, sorted[1..]);
      assert sorted == [sorted[0]] + sorted[1..];
    }
  }

  lemma {:induction false} InsertKeepsOrder(r: Row, sorted: seq<Row>)
    requires Descending(sorted) && forall i | 0 <= i < |sorted| :: sorted[i].entryId != r.entryId
    ensures Descending(Insert(r, sorted))
  {
    if sorted != [] && Newer(sorted[0], r) {
      var rest := Insert(r, sorted[1..]);
      InsertKeepsOrder(r, sorted[1..]);
      InsertKeepsRows(r, sorted[1..]);
      forall j | 0 <= j < |rest| ensures Newer(sorted[0], rest[j]) {
        assert rest[j] in multiset(rest);
      }
    }
  }

  lemma {:induction false} SortSorts(rows: seq<Row>)
    requires DistinctIds(rows)
    ensures multiset(Sort(rows)) == multiset(rows) && Descending(Sort(rows))
  {
    if rows != [] {
      var prefix, r := rows[..|rows| - 1], rows[|rows| - 1];
      SortSorts(prefix);
      assert rows == prefix + [r];
      forall i | 0 <= i < |Sort(prefix)| ensures Sort(prefix)[i].entryId != r.entryId {
        assert Sort(prefix)[i] in multiset(prefix);
      }
      hide Insert;
      InsertKeepsRows(r, Sort(prefix));
      InsertKeepsOrder(r, Sort(prefix));
    }
  }

  /** There is only one descending arrangement of given rows. */
  lemma {:induction false} DescendingIsUnique(a: seq<Row>, b: seq<Row>)
    requires Descending(a) && Descending(b) && multiset(a) == multiset(b)
    ensures a == b
  {
    if a == [] || b == [] {
      assert |multiset(a)| == |a| && |multiset(b)| == |b|;
    } else {
      assert a[0] == b[0] by {
        assert a[0] in multiset(b) && b[0] in multiset(a);
      }
      assert a == [a[0]] + a[1..] && b == [b[0]] + b[1..];
      assert multiset(a[1..]) == multiset(a) - multiset{a[0]};
      assert multiset(b[1..]) == multiset(b) - multiset{b[0]};
      DescendingIsUnique(a[1..], b[1..]);
    }
  }

  // ---------- ... whatever order the table is stored in ----------

  lemma Remove(s: seq<Entry>, e: Entry) returns (i: nat)
    requires e in multiset(s)
    ensures i < |s| && s[i] == e && s == s[..i] + [e] + s[i + 1..]
    ensures multiset(s[..i] + s[i + 1..]) == multiset(s) - multiset{e}
  {
    i :| 0 <= i < |s| && s[i] == e;
    assert s == s[..i] + [e] + s[i + 1..];
  }

  lemma {:induction false} JoinOnePermuted(mine: Entry, s: seq<Entry>, t: seq<Entry>)
    requires multiset(s) == multiset(t)
    ensures multiset(JoinOne(mine, s)) == multiset(JoinOne(mine, t))
  {
    if s == [] {
      assert |multiset(t)| == 0;
    } else {
      var p, e := s[..|s| - 1], s[|s| - 1];
      assert s == p + [e];
      assert e in multiset(s);
      var i := Remove(t, e);
      assert multiset(p) == multiset(s) - multiset{e};
      JoinOnePermuted(mine, p, t[..i] + t[i + 1..]);
      JoinOneAppend(mine, p, [e]);
      JoinOneAppend(mine, t[..i] + [e], t[i + 1..]);
      JoinOneAppend(mine, t[..i], [e]);
      JoinOneAppend(mine, t[..i], t[i + 1..]);
    }
  }

  lemma {:induction false} JoinSameRows(mine: seq<Entry>, s: seq<Entry>, t: seq<Entry>, account: Uuid)
    requires multiset(s) == multiset(t)
    ensures multiset(Join(mine, s, account)) == multiset(Join(mine, t, account))
  {
    if mine != [] {
      JoinSameRows(mine[..|mine| - 1], s, t, account);
      JoinOnePermuted(mine[|mine| - 1], s, t);
    }
  }

  lemma {:induction false} JoinPermuted(a: seq<Entry>, b: seq<Entry>, entries: seq<Entry>, account: Uuid)
    requires multiset(a) == multiset(b)
    ensures multiset(Join(a, entries, account)) == multiset(Join(b, entries, account))
  {
    if a == [] {
      assert |multiset(b)| == 0;
    } else {
      var p, e := a[..|a| - 1], a[|a| - 1];
      assert a == p + [e];
      assert e in multiset(a);
      var i := Remove(b, e);
      assert multiset(p) == multiset(a) - multiset{e};
      JoinPermuted(p, b[..i] + b[i + 1..], entries, account);
      JoinAppend(p, [e], entries, account);
      JoinAppend(b[..i] + [e], b[i + 1..], entries, account);
      JoinAppend(b[..i], [e], entries, account);
      JoinAppend(b[..i], b[i + 1..], entries, account);
    }
  }

  lemma {:induction false} TransfersHaveDistinctIds(s: seq<Entry>, account: Uuid)
    requires Paired(s)
    ensures DistinctIds(TransfersOf(s, account))
    ensures forall i | 0 <= i < |TransfersOf(s, account)| ::
              exists k | 0 <= k < |s| :: s[k].id == TransfersOf(s, account)[i].entryId
    decreases |s|
  {
    if s != [] {
      TransfersHaveDistinctIds(s[..|s| - 2], account);
    }
  }

  lemma DistinctIdsPermuted(a: seq<Row>, b: seq<Row>)
    requires multiset(a) == multiset(b) && DistinctIds(a)
    ensures DistinctIds(b)
  {
    forall i, j | 0 <= i < j < |b| ensures b[i].entryId != b[j].entryId {
      assert b == b[..i] + [b[i]] + b[i + 1..j] + [b[j]] + b[j + 1..];
      if b[i] == b[j] {
        assert multiset(b)[b[i]] >= 2;
        AppearsOnce(a, b[i]);
      } else {
        assert b[i] in multiset(a) && b[j] in multiset(a);
      }
    }
  }

  lemma {:induction false} AppearsOnce(a: seq<Row>, r: Row)
    requires DistinctIds(a)
    ensures multiset(a)[r] <= 1
  {
    if a != [] {
      var p, last := a[..|a| - 1], a[|a| - 1];
      AppearsOnce(p, r);
      assert a == p + [last];
      forall i | 0 <= i < |p| ensures p[i] != last {
        assert a[i] == p[i];
      }
      assert last !in multiset(p);
    }
  }

  /** The list is the hundred newest transfers of the account in the one descending order by
      timestamp and entry id, in whatever order the rows happen to be stored. */
  lemma ListingIsCanonical(db: Db, stored: seq<Entry>, account: Uuid, order: seq<Row>)
    requires LedgerOk(db) && account in db.accounts && multiset(stored) == multiset(db.entries)
    requires Descending(order) && multiset(order) == multiset(TransfersOf(db.entries, account))
    ensures ListTransactions(db.(entries := stored), account) == Items(ItemsOf(Limit(order)))
  {
    var transfers, rows := TransfersOf(db.entries, account), Join(stored, stored, account);
    JoinRecoversTransfers(db.entries, account);
    JoinPermuted(stored, db.entries, stored, account);
    JoinSameRows(db.entries, stored, db.entries, account);
    TransfersHaveDistinctIds(db.entries, account);
    DistinctIdsPermuted(transfers, rows);
    SortSorts(rows);
    DescendingIsUnique(Sort(rows), order);
  }

  /** Such an order exists: the list of the table as written is one. */
  lemma ListingExists(db: Db, account: Uuid)
    requires LedgerOk(db) && account in db.accounts
    ensures var order := Sort(TransfersOf(db.entries, account));
            Descending(order) && multiset(order) == multiset(TransfersOf(db.entries, account))
  {
    TransfersHaveDistinctIds(db.entries, account);
    SortSorts(TransfersOf(db.entries, account));
  }

  // ---------- What the client sees ----------

  /** The other leg of the row's transfer is in the table, on the account the row names. */
  ghost predicate Faces(row: Row, s: seq<Entry>) {
    exists j :: 0 <= j < |s| && s[j].transferId == row.transferId && s[j].id != row.entryId
                && s[j].amount == -row.amount && s[j].accountId == row.counterparty
  }

  lemma {:induction false} RowsFaceTheirOtherLeg(s: seq<Entry>, account: Uuid, k: nat)
    requires Paired(s) && k < |TransfersOf(s, account)|
    ensures Faces(TransfersOf(s, account)[k], s)
    decreases |s|
  {
    var p, a, b := LastPair(s, account);
    if k < |TransfersOf(p, account)| {
      RowsFaceTheirOtherLeg(p, account, k);
      var row := TransfersOf(p, account)[k];
      var j :| 0 <= j < |p| && p[j].transferId == row.transferId && p[j].id != row.entryId
               && p[j].amount == -row.amount && p[j].accountId == row.counterparty;
      assert s[j] == p[j];
    } else {
      assert s[|p|] == a && s[|p| + 1] == b;
    }
  }

  lemma OneRowEachWithout(rows: seq<Row>, mine: seq<Entry>, k: nat)
    requires OneRowEach(rows, mine) && k < |rows|
    ensures RowFor(rows[k], mine[k])
    ensures OneRowEach(rows[..k] + rows[k + 1..], mine[..k] + mine[k + 1..])
    ensures multiset(rows[..k] + rows[k + 1..]) == multiset(rows) - multiset{rows[k]}
    ensures multiset(mine[..k] + mine[k + 1..]) == multiset(mine) - multiset{mine[k]}
  {
    WithoutOne(rows, k);
    WithoutOne(mine, k);
  }

  lemma Rejoined(mine: seq<Entry>, k: nat, rest: seq<Entry>)
    requires k < |mine| && multiset(rest) == multiset(mine) - multiset{mine[k]}
    ensures multiset(rest + [mine[k]]) == multiset(mine)
  {
    assert mine[k] in multiset(mine);
  }

  /** Rearranged rows belong to the entries, rearranged alike. */
  lemma {:induction false} EntriesOf(rows: seq<Row>, mine: seq<Entry>, sorted: seq<Row>)
    returns (entries: seq<Entry>)
    requires OneRowEach(rows, mine) && multiset(sorted) == multiset(rows)
    ensures OneRowEach(sorted, entries) && multiset(entries) == multiset(mine)
    decreases |sorted|
  {
    assert |multiset(sorted)| == |sorted| && |multiset(rows)| == |rows|;
    if sorted == [] {
      entries := [];
    } else {
      var p, last := sorted[..|sorted| - 1], sorted[|sorted| - 1];
      assert sorted == p + [last];
      assert last in multiset(rows);
      var k :| 0 <= k < |rows| && rows[k] == last;
      OneRowEachWithout(rows, mine, k);
      var rest := EntriesOf(rows[..k] + rows[k + 1..], mine[..k] + mine[k + 1..], p);
      Rejoined(mine, k, rest);
      entries := rest + [mine[k]];
    }
  }

  /** Listed before: later, or as late and with the greater entry id. */
  predicate Precedes(a: Entry, b: Entry) {
    a.createdAt > b.createdAt || (a.createdAt == b.createdAt && a.id > b.id)
  }

  /** The item tells of the entry, and of the account on the other side of its transfer. */
  ghost predicate TellsOf(item: Item, e: Entry, s: seq<Entry>) {
    && item.transferId == e.transferId && item.amount == e.amount && item.createdAt == e.createdAt
    && (item.direction == Debit <==> e.amount < 0)
    && exists j :: 0 <= j < |s| && s[j].transferId == e.transferId && s[j].id != e.id
                   && s[j].amount == -e.amount && s[j].accountId == item.counterparty
  }

  lemma {:induction false} ItemsTell(rows: seq<Row>, entries: seq<Entry>, s: seq<Entry>)
    requires OneRowEach(rows, entries) && forall i | 0 <= i < |rows| :: Faces(rows[i], s)
    ensures |ItemsOf(rows)| == |rows|
    ensures forall i | 0 <= i < |rows| :: TellsOf(ItemsOf(rows)[i], entries[i], s)
  {
    if rows != [] {
      ItemsTell(rows[..|rows| - 1], entries[..|rows| - 1], s);
    }
  }

  lemma SortedRows(s: seq<Entry>, account: Uuid) returns (entries: seq<Entry>)
    requires Paired(s)
    ensures var sorted := Sort(Join(s, s, account));
            && OneRowEach(sorted, entries) && Descending(sorted)
            && forall i | 0 <= i < |sorted| :: Faces(sorted[i], s)
    ensures multiset(entries) == multiset(Mine(s, account))
  {
    var rows := Join(s, s, account);
    var sorted := Sort(rows);
    JoinHasOneRowPerEntry(s, account);
    JoinRecoversTransfers(s, account);
    TransfersHaveDistinctIds(s, account);
    SortSorts(rows);
    entries := EntriesOf(rows, Mine(s, account), sorted);
    forall i | 0 <= i < |sorted| ensures Faces(sorted[i], s) {
      assert sorted[i] in multiset(rows);
      var k :| 0 <= k < |rows| && rows[k] == sorted[i];
      RowsFaceTheirOtherLeg(s, account, k);
    }
  }

  lemma EntriesDescend(sorted: seq<Row>, entries: seq<Entry>)
    requires Descending(sorted) && OneRowEach(sorted, entries)
    ensures forall i, j | 0 <= i < j < |entries| :: Precedes(entries[i], entries[j])
  {
    forall i, j | 0 <= i < j < |entries| ensures Precedes(entries[i], entries[j]) {
      assert Newer(sorted[i], sorted[j]);
    }
  }

  /** The list of an account: its own entries, newest first and the greater id first among equals, a
      hundred at most and then the newest hundred, each with the account on the other side. */
  lemma ListShowsTheNewest(db: Db, account: Uuid) returns (listed: seq<Entry>, left: seq<Entry>)
    requires LedgerOk(db) && account in db.accounts
    ensures multiset(listed) + multiset(left) == multiset(Mine(db.entries, account))
    ensures |listed| == if |Mine(db.entries, account)| < 100 then |Mine(db.entries, account)| else 100
    ensures forall i, j | 0 <= i < j < |listed| :: Precedes(listed[i], listed[j])
    ensures forall i, j | 0 <= i < |listed| && 0 <= j < |left| :: Precedes(listed[i], left[j])
    ensures var result := ListTransactions(db, account);
            && result.Items? && |result.items| == |listed|
            && forall i | 0 <= i < |listed| :: TellsOf(result.items[i], listed[i], db.entries)
  {
    var entries := SortedRows(db.entries, account);
    var sorted := Sort(Join(db.entries, db.entries, account));
    assert |multiset(entries)| == |entries| && |multiset(Mine(db.entries, account))| == |Mine(db.entries, account)|;
    EntriesDescend(sorted, entries);
    hide LedgerOk, Join, Sort, Mine, Descending, Faces, Precedes, TellsOf;
    var n := if |entries| < 100 then |entries| else 100;
    listed, left := entries[..n], entries[n..];
    assert entries == listed + left;
    TopIsListed(sorted, entries, db.entries, n);
  }

  lemma TopIsListed(sorted: seq<Row>, entries: seq<Entry>, s: seq<Entry>, n: nat)
    requires OneRowEach(sorted, entries) && forall i | 0 <= i < |sorted| :: Faces(sorted[i], s)
    requires n == if |entries| < 100 then |entries| else 100
    ensures var items := ItemsOf(Limit(sorted));
            |items| == n && forall i | 0 <= i < n :: TellsOf(items[i], entries[i], s)
  {
    assert Limit(sorted) == sorted[..n];
    ItemsTell(sorted[..n], entries[..n], s);
  }

  lemma UnknownAccountsAreNotFound(db: Db, account: Uuid)
    ensures ListTransactions(db, account) == Unknown(account) <==> account !in db.accounts
  {
  }

  /** Mine is what it says: the entries of the account, as often as they are there. */
  lemma {:induction false} MineAreTheAccounts(s: seq<Entry>, account: Uuid, e: Entry)
    ensures multiset(Mine(s, account))[e] == if e.accountId == account then multiset(s)[e] else 0
  {
    if s != [] {
      var p, last := s[..|s| - 1], s[|s| - 1];
      assert s == p + [last];
      MineAreTheAccounts(p, account, e);
    }
  }
}
