/** The conservation trigger on its own (migrations/versions/c4b8f2e07a13): any number of writers
    that only insert, none of them going through the application, each row checked once before its
    transaction commits, against whatever has been committed by then. */
module Trigger {
  import opened Models

  /** A transaction: the rows it inserted, and those whose trigger has run. */
  datatype Writer = Writer(rows: seq<Entry>, fired: set<nat>)

  datatype Table = Table(committed: seq<Entry>, writers: map<nat, Writer>)

  datatype Event =
    | Open(t: nat)
    | Insert(t: nat, row: Entry)
    | Fire(t: nat, i: nat)  // assert_transfer_conserves_money accepts row i
    | Publish(t: nat)       // the commit completes
    | Rollback(t: nat)      // by choice, or because a trigger raised

  /** SELECT COALESCE(SUM(amount), 0) ... WHERE transfer_id = NEW.transfer_id, as the transaction
      sees the table: committed rows and its own. */
  function LegSum(committed: seq<Entry>, own: seq<Entry>, transfer: Uuid): int {
    Sum(committed + own, OfTransfer(transfer))
  }

  /** A trigger may run at any time after its row's insertion: at the commit, as it does by default,
      or earlier, after SET CONSTRAINTS ... IMMEDIATE. */
  predicate Possible(s: Table, e: Event) {
    if e.Open? then e.t !in s.writers
    else
      e.t in s.writers &&
      var w := s.writers[e.t];
      match e
      case Insert(_, row) => row.amount != 0
      case Fire(_, i) => i < |w.rows| && i !in w.fired && LegSum(s.committed, w.rows, w.rows[i].transferId) == 0
      case Publish(_) => AllFired(w)
      case Rollback(_) => true
  }

  predicate AllFired(w: Writer) {
    forall i | 0 <= i < |w.rows| :: i in w.fired
  }

  function Next(s: Table, e: Event): Table
    requires Possible(s, e)
  {
    if e.Open? then s.(writers := s.writers[e.t := Writer([], {})])
    else
      var w := s.writers[e.t];
      match e
      case Insert(_, row) => s.(writers := s.writers[e.t := w.(rows := w.rows + [row])])
      case Fire(_, i) => s.(writers := s.writers[e.t := w.(fired := w.fired + {i})])
      case Publish(_) => Table(s.committed + w.rows, s.writers - {e.t})
      case Rollback(_) => s.(writers := s.writers - {e.t})
  }

  function Play(s: Table, events: seq<Event>): Option<Table>
    decreases |events|
  {
    if events == [] then Some(s)
    else
      var before := Play(s, events[..|events| - 1]);
      if before.Some? && Possible(before.value, events[|events| - 1])
      then Some(Next(before.value, events[|events| - 1]))
      else None
  }

  // ---------- What the trigger keeps ----------

  ghost predicate NonZero(rows: seq<Entry>) {
    forall i | 0 <= i < |rows| :: rows[i].amount != 0
  }

  ghost predicate Balanced(rows: seq<Entry>) {
    forall t: Uuid :: Sum(rows, OfTransfer(t)) == 0
  }

  /** Row i is the last of its transfer. */
  predicate LastOfTransfer(rows: seq<Entry>, i: nat)
    requires i < |rows|
  {
    forall j | i < j < |rows| :: rows[j].transferId != rows[i].transferId
  }

  /** If the trigger of a transfer's last row has run, this transaction has balanced the transfer by
      itself. Triggers of earlier rows may have judged an incomplete set. */
  ghost predicate WriterOk(w: Writer) {
    && NonZero(w.rows) && (forall i | i in w.fired :: i < |w.rows|)
    && forall i | i in w.fired && LastOfTransfer(w.rows, i) :: Sum(w.rows, OfTransfer(w.rows[i].transferId)) == 0
  }

  ghost predicate TableOk(s: Table) {
    Balanced(s.committed) && NonZero(s.committed) && forall t | t in s.writers :: WriterOk(s.writers[t])
  }

  /** The trigger counts the committed rows and the transaction's own; so in a balanced table, whatever
      others have committed in the meantime, it judges a transaction by its own rows alone. */
  lemma TriggerJudgesOwnRows(committed: seq<Entry>, own: seq<Entry>, transfer: Uuid)
    ensures LegSum(committed, own, transfer) == Sum(committed, OfTransfer(transfer)) + Sum(own, OfTransfer(transfer))
    ensures Balanced(committed) ==> LegSum(committed, own, transfer) == Sum(own, OfTransfer(transfer))
  {
    SumAppend(committed, own, OfTransfer(transfer));
  }

  lemma {:induction false} FindLast(rows: seq<Entry>, t: Uuid) returns (i: nat)
    requires exists j | 0 <= j < |rows| :: rows[j].transferId == t
    ensures i < |rows| && rows[i].transferId == t && LastOfTransfer(rows, i)
  {
    i := |rows| - 1;
    if rows[i].transferId != t {
      i := FindLast(rows[..i], t);
    }
  }

  /** Inserting a row leaves the transfers it is not part of as they were. */
  lemma InsertKeepsWriterOk(w: Writer, row: Entry)
    requires WriterOk(w) && row.amount != 0
    ensures WriterOk(w.(rows := w.rows + [row]))
  {
    var rows := w.rows + [row];
    forall i | i in w.fired && LastOfTransfer(rows, i) ensures Sum(rows, OfTransfer(rows[i].transferId)) == 0 {
      assert rows[|rows| - 1] == row;
      assert forall j | i < j < |w.rows| :: rows[j] == w.rows[j];
      assert LastOfTransfer(w.rows, i);
      SumSnoc(w.rows, row, OfTransfer(rows[i].transferId));
    }
  }

  lemma PublishKeepsBalance(committed: seq<Entry>, w: Writer)
    requires Balanced(committed) && WriterOk(w) && AllFired(w)
    ensures Balanced(committed + w.rows)
  {
    forall t: Uuid ensures Sum(committed + w.rows, OfTransfer(t)) == 0 {
      SumAppend(committed, w.rows, OfTransfer(t));
      if exists j | 0 <= j < |w.rows| :: w.rows[j].transferId == t {
        var i := FindLast(w.rows, t);
      } else {
        SumOfNothing(w.rows, OfTransfer(t));
      }
    }
  }

  lemma NextKeepsTableOk(s: Table, e: Event)
    requires TableOk(s) && Possible(s, e)
    ensures TableOk(Next(s, e))
  {
    if e.Fire? {
      var w := s.writers[e.t];
      TriggerJudgesOwnRows(s.committed, w.rows, w.rows[e.i].transferId);
    } else if e.Insert? {
      InsertKeepsWriterOk(s.writers[e.t], e.row);
    } else if e.Publish? {
      PublishKeepsBalance(s.committed, s.writers[e.t]);
    }
  }

  lemma {:induction false} PlayKeepsTableOk(s: Table, events: seq<Event>)
    requires TableOk(s) && Play(s, events).Some?
    ensures TableOk(Play(s, events).value)
    decreases |events|
  {
    if events != [] {
      PlayKeepsTableOk(s, events[..|events| - 1]);
      NextKeepsTableOk(Play(s, events[..|events| - 1]).value, events[|events| - 1]);
    }
  }

  // ---------- What follows for the whole table ----------

  function Without(rows: seq<Entry>, transfer: Uuid): (rest: seq<Entry>)
    ensures |rest| <= |rows|
  {
    if rows == [] then []
    else
      var e := rows[|rows| - 1];
      Without(rows[..|rows| - 1], transfer) + if e.transferId == transfer then [] else [e]
  }

  lemma {:induction false} WithoutSums(rows: seq<Entry>, transfer: Uuid, other: Uuid)
    ensures Sum(rows, All) == Sum(rows, OfTransfer(transfer)) + Sum(Without(rows, transfer), All)
    ensures Sum(Without(rows, transfer), OfTransfer(other))
         == if other == transfer then 0 else Sum(rows, OfTransfer(other))
  {
    if rows != [] {
      var prefix, e := rows[..|rows| - 1], rows[|rows| - 1];
      WithoutSums(prefix, transfer, other);
      var rest := Without(prefix, transfer);
      if e.transferId == transfer {
        assert Without(rows, transfer) == rest;
      } else {
        assert Without(rows, transfer) == rest + [e];
        SumSnoc(rest, e, All);
        SumSnoc(rest, e, OfTransfer(other));
      }
    }
  }

  /** If every transfer nets to zero, so does the table. */
  lemma {:induction false} BalancedTotalsZero(rows: seq<Entry>)
    requires Balanced(rows)
    ensures Sum(rows, All) == 0
    decreases |rows|
  {
    if rows != [] {
      var t := rows[|rows| - 1].transferId;
      forall other: Uuid ensures Sum(Without(rows, t), OfTransfer(other)) == 0 {
        WithoutSums(rows, t, other);
      }
      WithoutSums(rows, t, t);
      BalancedTotalsZero(Without(rows, t));
    }
  }

  /** Amounts of one sign cannot cancel. */
  lemma {:induction false} OneSignedSum(rows: seq<Entry>, transfer: Uuid, sign: int)
    requires sign == 1 || sign == -1
    requires forall i | 0 <= i < |rows| && rows[i].transferId == transfer :: sign * rows[i].amount > 0
    ensures sign * Sum(rows, OfTransfer(transfer)) >= 0
    ensures (exists i | 0 <= i < |rows| :: rows[i].transferId == transfer) ==>
              sign * Sum(rows, OfTransfer(transfer)) > 0
  {
    if rows != [] {
      OneSignedSum(rows[..|rows| - 1], transfer, sign);
    }
  }

  /** The transfer of row i has a debit and a credit. */
  ghost predicate HasBothLegs(rows: seq<Entry>, i: nat)
    requires i < |rows|
  {
    && (exists d | 0 <= d < |rows| :: rows[d].transferId == rows[i].transferId && rows[d].amount < 0)
    && (exists c | 0 <= c < |rows| :: rows[c].transferId == rows[i].transferId && rows[c].amount > 0)
  }

  /** "Sums to zero" implies "has both legs". */
  lemma BalancedHasBothLegs(rows: seq<Entry>, i: nat)
    requires Balanced(rows) && NonZero(rows) && i < |rows|
    ensures HasBothLegs(rows, i)
  {
    var t := rows[i].transferId;
    if forall d | 0 <= d < |rows| && rows[d].transferId == t :: rows[d].amount >= 0 {
      OneSignedSum(rows, t, 1);
    }
    if forall c | 0 <= c < |rows| && rows[c].transferId == t :: rows[c].amount <= 0 {
      OneSignedSum(rows, t, -1);
    }
  }

  /** The trigger alone conserves money: starting from a table where it holds, whatever insert-only
      writers do at once, even several using one transfer id without seeing each other, and whenever
      each row is checked, every
      committed transfer nets to zero and has a debit and a credit, and the table nets to zero. */
  lemma TheSchemaConservesMoney(s: Table, events: seq<Event>)
    requires TableOk(s) && Play(s, events).Some?
    ensures var rows := Play(s, events).value.committed;
            && Sum(rows, All) == 0
            && Balanced(rows)
            && forall i | 0 <= i < |rows| :: HasBothLegs(rows, i)
  {
    PlayKeepsTableOk(s, events);
    var rows := Play(s, events).value.committed;
    BalancedTotalsZero(rows);
    forall i | 0 <= i < |rows| ensures HasBothLegs(rows, i) {
      BalancedHasBothLegs(rows, i);
    }
  }

  // ---------- The trigger refuses nothing else ----------

  /** A row is refused exactly when the transfer it belongs to does not net to zero in the rows of its
      own transaction. */
  lemma RefusedExactlyIfUnbalanced(s: Table, t: nat, i: nat)
    requires TableOk(s) && t in s.writers && i < |s.writers[t].rows| && i !in s.writers[t].fired
    ensures var rows := s.writers[t].rows;
            Possible(s, Fire(t, i)) <==> Sum(rows, OfTransfer(rows[i].transferId)) == 0
  {
    TriggerJudgesOwnRows(s.committed, s.writers[t].rows, s.writers[t].rows[i].transferId);
  }

  /** An event concerns its own writer; and only a commit adds rows, exactly the writer's. */
  lemma EventsAreLocal(s: Table, e: Event)
    requires Possible(s, e)
    ensures Next(s, e).writers - {e.t} == s.writers - {e.t}
    ensures Next(s, e).committed == if e.Publish? then s.committed + s.writers[e.t].rows else s.committed
    ensures e.Publish? || e.Rollback? ==> Next(s, e).writers == s.writers - {e.t}
  {
  }

  lemma PlayOneMore(s: Table, events: seq<Event>, e: Event)
    requires Play(s, events).Some? && Possible(Play(s, events).value, e)
    ensures Play(s, events + [e]) == Some(Next(Play(s, events).value, e))
  {
    assert (events + [e])[..|events|] == events;
  }

  function Upto(n: nat): set<nat> {
    if n == 0 then {} else Upto(n - 1) + {n - 1}
  }

  lemma {:induction false} UptoMembers(n: nat, i: nat)
    ensures i in Upto(n) <==> i < n
  {
    if n > 0 {
      UptoMembers(n - 1, i);
    }
  }

  lemma {:induction false} FireEach(s: Table, t: nat, n: nat) returns (events: seq<Event>)
    requires TableOk(s) && t in s.writers && Balanced(s.writers[t].rows) && n <= |s.writers[t].rows|
    ensures var w := s.writers[t];
            Play(s, events) == Some(s.(writers := s.writers[t := w.(fired := w.fired + Upto(n))]))
  {
    var w := s.writers[t];
    if n == 0 {
      events := [];
      assert w.fired + Upto(0) == w.fired;
      assert s.writers[t := w] == s.writers;
    } else {
      events := FireEach(s, t, n - 1);
      var now := Play(s, events).value;
      if n - 1 in w.fired {
        assert w.fired + Upto(n) == w.fired + Upto(n - 1);
      } else {
        UptoMembers(n - 1, n - 1);
        TriggerJudgesOwnRows(s.committed, w.rows, w.rows[n - 1].transferId);
        PlayOneMore(s, events, Fire(t, n - 1));
        assert w.fired + Upto(n - 1) + {n - 1} == w.fired + Upto(n);
        assert now.writers[t := w.(fired := w.fired + Upto(n))] == s.writers[t := w.(fired := w.fired + Upto(n))];
        events := events + [Fire(t, n - 1)];
      }
    }
  }

  /** An open transaction whose rows balance can commit, whatever is in the table and whoever else is
      at work; then its rows are in the table, and nothing else has changed. */
  lemma BalancedRowsCanBePublished(s: Table, t: nat) returns (events: seq<Event>)
    requires TableOk(s) && t in s.writers && Balanced(s.writers[t].rows)
    ensures Play(s, events) == Some(Table(s.committed + s.writers[t].rows, s.writers - {t}))
  {
    var w := s.writers[t];
    events := FireEach(s, t, |w.rows|);
    var now := Play(s, events).value;
    assert now.writers - {t} == s.writers - {t};
    forall i: nat | i < |w.rows| ensures i in Upto(|w.rows|) {
      UptoMembers(|w.rows|, i);
    }
    PlayOneMore(s, events, Publish(t));
    events := events + [Publish(t)];
  }

  lemma {:induction false} InsertEach(s: Table, t: nat, rows: seq<Entry>) returns (events: seq<Event>)
    requires t !in s.writers && NonZero(rows)
    ensures Play(s, events) == Some(s.(writers := s.writers[t := Writer(rows, {})]))
  {
    if rows == [] {
      events := [Open(t)];
      assert Play(s, []) == Some(s);
      PlayOneMore(s, [], Open(t));
      assert [] + [Open(t)] == [Open(t)];
    } else {
      var prefix, last := rows[..|rows| - 1], rows[|rows| - 1];
      events := InsertEach(s, t, prefix);
      PlayOneMore(s, events, Insert(t, last));
      assert prefix + [last] == rows;
      assert s.writers[t := Writer(prefix, {})][t := Writer(rows, {})] == s.writers[t := Writer(rows, {})];
      events := events + [Insert(t, last)];
    }
  }

  /** Any rows of non-zero amounts that balance can be committed by a writer of their own. */
  lemma BalancedRowsAreAccepted(s: Table, t: nat, rows: seq<Entry>) returns (events: seq<Event>)
    requires TableOk(s) && t !in s.writers && NonZero(rows) && Balanced(rows)
    ensures Play(s, events) == Some(Table(s.committed + rows, s.writers))
  {
    var inserts := InsertEach(s, t, rows);
    var open := Play(s, inserts).value;
    PlayKeepsTableOk(s, inserts);
    var rest := BalancedRowsCanBePublished(open, t);
    PlayAppend(s, inserts, rest);
    assert open.writers - {t} == s.writers;
    events := inserts + rest;
  }

  lemma {:induction false} PlayAppend(s: Table, a: seq<Event>, b: seq<Event>)
    requires Play(s, a).Some?
    ensures Play(s, a + b) == Play(Play(s, a).value, b)
    decreases |b|
  {
    if b == [] {
      assert a + b == a;
    } else {
      assert (a + b)[..|a + b| - 1] == a + b[..|b| - 1];
      PlayAppend(s, a, b[..|b| - 1]);
    }
  }
}
