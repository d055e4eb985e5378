/** The services' code as it runs: one request on one database connection, statement by statement,
    changing the session's objects in place, while other connections do what they like in between
    (app/services/idempotency.py, app/services/transfers.py, app/services/accounts.py).
    Every method is shown to take only steps of the protocol, so what is proved of all runs is
    proved of this code. */
module Sessions {
  import opened Models
  import opened Requests
  import opened Ledger
  import opened History
  import opened Protocol
  import opened Invariants
  import opened Guarantees
  import opened Liveness
  import opened FastPath

  /** What the code itself does, as opposed to what may happen to it. */
  predicate CodeStep(a: Action) {
    !a.Arrive? && !a.SkipRead? && !a.DeadlockVictim? && !a.Crash?
  }

  /** Request r takes steps of the code, and others take any, or none if r is alone. */
  predicate Permitted(acts: seq<Action>, r: Rid, alone: bool) {
    forall i | 0 <= i < |acts| :: if acts[i].r == r then CodeStep(acts[i]) else !alone
  }

  ghost predicate Reaches(r: Rid, alone: bool, w: World, w': World) {
    exists acts :: Leads(w, acts, w') && Permitted(acts, r, alone)
  }

  lemma ReachesSelf(r: Rid, alone: bool, w: World)
    ensures Reaches(r, alone, w, w)
  {
    StandingStill(w, w);
    assert Permitted([], r, alone);
  }

  lemma ReachesStep(r: Rid, alone: bool, w: World, a: Action)
    requires Enabled(w, a) && a.r == r && CodeStep(a)
    ensures Reaches(r, alone, w, Step(w, a))
  {
    hide Leads, Enabled, Step;
    OneStep(w, a);
    assert Permitted([a], r, alone);
  }

  lemma ReachesAgain(r: Rid, alone: bool, w: World, w': World, w'': World)
    requires Reaches(r, alone, w, w') && Reaches(r, alone, w', w'')
    ensures Reaches(r, alone, w, w'')
  {
    hide Leads;
    var a :| Leads(w, a, w') && Permitted(a, r, alone);
    var b :| Leads(w', b, w'') && Permitted(b, r, alone);
    OneAfterTheOther(w, a, w', b, w'');
    assert Permitted(a + b, r, alone);
  }

  /** What a transfer stages is what follows from the rows it read. */
  lemma StagedTransfer(call: Call, rows: seq<Account>, f: Fresh, source: int, destination: int)
    requires call.body.Transfer? && !SameAccount(call.body) && |rows| == 2
    requires source == RowOf(call.body, rows, call.body.source).balance - call.body.amount
    requires destination == RowOf(call.body, rows, call.body.destination).balance + call.body.amount
    ensures var Transfer(s, d, amount) := call.body;
            var added := [Entry(f.debit, f.resource, s, -amount, f.ts)]
                       + [Entry(f.credit, f.resource, d, amount, f.ts)];
            WritesOf(call, rows, f)
            == Writes(map[s := source, d := destination], map[], added, RecordOf(call, f))
  {
  }

  // ---------- What each statement does to its own request ----------

  ghost function PhaseAfter(w: World, a: Action): Phase
    requires Enabled(w, a)
  {
    Step(w, a).procs[a.r].phase
  }

  lemma ValidateStep(w: World, r: Rid)
    requires r in w.procs && w.procs[r].phase.Received?
    ensures Enabled(w, Validate(r))
    ensures PhaseAfter(w, Validate(r))
         == if SameAccount(w.procs[r].call.body) then Finished(SameAccountTransfer) else Reading
  {
  }

  lemma FastReadStep(w: World, r: Rid)
    requires r in w.procs && w.procs[r].phase.Reading?
    ensures Enabled(w, FastRead(r))
    ensures var c := w.procs[r].call;
            PhaseAfter(w, FastRead(r)) == if c.key in w.db.keys then Finished(Replay(w.db.keys[c.key], c)) else Missed
  {
  }

  lemma BeginTxStep(w: World, r: Rid, ts: int)
    requires r in w.procs && w.procs[r].phase.Missed?
    ensures Enabled(w, Begin(r, ts)) && PhaseAfter(w, Begin(r, ts)) == Claiming(ts)
  {
  }

  lemma InsertStep(w: World, r: Rid)
    requires r in w.procs && w.procs[r].phase.Claiming?
    ensures var c, p := w.procs[r].call, w.procs[r].phase;
            if c.key in w.claims then Enabled(w, TimeOut(r)) && PhaseAfter(w, TimeOut(r)) == Finished(LockTimeout)
            else if c.key in w.db.keys then Enabled(w, Duplicate(r)) && PhaseAfter(w, Duplicate(r)) == RaceLost
            else Enabled(w, Claim(r)) && PhaseAfter(w, Claim(r)) == Holding(p.ts, [])
  {
  }

  lemma WinnerStep(start: Db, w: World, r: Rid)
    requires Inv(start, w) && r in w.procs && w.procs[r].phase.RaceLost?
    ensures var c := w.procs[r].call;
            && c.key in w.db.keys && Enabled(w, RereadWinner(r))
            && PhaseAfter(w, RereadWinner(r)) == Finished(Replay(w.db.keys[c.key], c))
  {
    assert ProcOk(w, r);
  }

  lemma SelectStep(w: World, r: Rid)
    requires r in w.procs && w.procs[r].phase.Holding?
    requires |w.procs[r].phase.rows| < |LockOrder(w.procs[r].call.body)|
    ensures var p := w.procs[r].phase;
            var id := LockOrder(w.procs[r].call.body)[|p.rows|];
            if id in w.rowLocks then Enabled(w, TimeOut(r)) && PhaseAfter(w, TimeOut(r)) == Finished(LockTimeout)
            else if id !in w.db.accounts then
              Enabled(w, MissRow(r)) && PhaseAfter(w, MissRow(r)) == Finished(AccountNotFound(id))
            else Enabled(w, LockRow(r)) && PhaseAfter(w, LockRow(r)) == Holding(p.ts, p.rows + [w.db.accounts[id]])
  {
  }

  lemma FundsStep(w: World, r: Rid)
    requires r in w.procs && w.procs[r].phase.Holding? && w.procs[r].call.body.Transfer?
    requires |w.procs[r].phase.rows| == 2
    ensures var p, body := w.procs[r].phase, w.procs[r].call.body;
            var balance := RowOf(body, p.rows, body.source).balance;
            && Enabled(w, CheckFunds(r))
            && PhaseAfter(w, CheckFunds(r))
               == if balance < body.amount then Finished(InsufficientFunds(body.source, balance, body.amount))
                  else Funded(p.ts, p.rows)
  {
  }

  lemma FlushStep(start: Db, w: World, r: Rid, t: Uuid, x: Uuid, y: Uuid)
    requires Inv(start, w) && r in w.procs && Unused(w, t, x, y)
    requires var p := w.procs[r];
             if p.call.body.Transfer? then p.phase.Funded? && |p.phase.rows| == 2
             else p.phase.Holding? && p.phase.rows == []
    ensures var p := w.procs[r];
            var f := Fresh(p.phase.ts, t, x, y);
            && Enabled(w, Flush(r, t, x, y))
            && PhaseAfter(w, Flush(r, t, x, y))
               == if FitsColumns(WritesOf(p.call, p.phase.rows, f)) then Flushed(f, p.phase.rows)
                  else Finished(AmountOutOfRange)
  {
    assert ProcOk(w, r);
    LedgerStaysOk(start, w);
    OverflowIsSequential(w, r, Fresh(w.procs[r].phase.ts, t, x, y));
  }

  lemma CommitStep(start: Db, w: World, r: Rid)
    requires Inv(start, w) && r in w.procs && w.procs[r].phase.Flushed?
    ensures Enabled(w, Commit(r))
    ensures PhaseAfter(w, Commit(r)) == Committed(ResponseTo(w.procs[r].call.body, w.procs[r].phase.drawn))
  {
    assert ProcOk(w, r);
    CommitSteps(w, r);
  }

  lemma RespondStep(w: World, r: Rid)
    requires r in w.procs && w.procs[r].phase.Committed?
    ensures Enabled(w, Respond(r)) && PhaseAfter(w, Respond(r)) == Finished(Created(w.procs[r].phase.response))
  {
  }

  lemma FailStep(w: World, r: Rid)
    requires r in w.procs && !Over(w.procs[r].phase)
    ensures Enabled(w, Fail(r)) && PhaseAfter(w, Fail(r)) == Finished(InternalError)
  {
  }

  /** An account as the ORM holds it. */
  class AccountObject {
    const id: Uuid
    var balance: int

    constructor (id: Uuid, balance: int)
      ensures this.id == id && this.balance == balance
    {
      this.id := id;
      this.balance := balance;
    }
  }

  /** The claimed key row as the ORM holds it; its response is filled in by the work. */
  class KeyObject {
    const operation: Operation
    const hash: string
    var resourceId: Option<Uuid>
    var status: Option<int>
    var body: Option<Response>

    constructor (operation: Operation, hash: string)
      ensures this.operation == operation && this.hash == hash
    {
      this.operation := operation;
      this.hash := hash;
      resourceId, status, body := None, None, None;
    }

    function Record(): KeyRecord
      reads this
    {
      KeyRecord(operation, hash, resourceId, status, body)
    }
  }

  // What a statement comes back with. Broken stands for every exception without a branch of its own;
  // like the others, it is seen after the rollback that follows it.
  datatype Insertion = Inserted | UniqueViolation | LockNotAvailable | InsertBroken
  datatype Selected = Row(account: Account) | NoRow | LockWaitTooLong | SelectBroken
  datatype Flushing = Sent | NumericOutOfRange | FlushBroken

  /** The value of some work, or the error it raised (after the rollback that follows it). */
  datatype Attempt<T> = Done(value: T) | Raised(answer: Answer)

  class Session {
    ghost const start: Db
    const me: Rid
    const began: int               // the timestamp its transaction gets
    const uuids: (Uuid, Uuid, Uuid) // what uuid4() gives it
    const failsAt: Option<nat>     // at which moment something unforeseen happens to it, if ever
    ghost const alone: bool        // whether no other request moves, or holds anything it asks for
    var world: World
    var moments: nat               // how many times something unforeseen could have happened

    /** A connection opened for a request that has just arrived. */
    constructor (
      ghost start: Db, world: World, me: Rid, began: int, uuids: (Uuid, Uuid, Uuid),
      failsAt: Option<nat>, ghost alone: bool)
      requires Inv(start, world) && me in world.procs && world.procs[me].phase.Received?
      requires Unused(world, uuids.0, uuids.1, uuids.2) && (alone ==> Unobstructed(world, me))
      ensures Valid() && this.start == start && this.world == world && this.me == me
      ensures this.began == began && this.uuids == uuids
      ensures this.failsAt == failsAt && this.alone == alone && moments == 0
    {
      Undrawn(start, world, me, Fresh(began, uuids.0, uuids.1, uuids.2));
      this.start, this.world, this.me, this.began, this.uuids := start, world, me, began, uuids;
      this.failsAt, this.alone, moments := failsAt, alone, 0;
    }

    ghost predicate Valid()
      reads this`world
    {
      && Inv(start, world)
      && me in world.procs
      && Available(world, me, uuids.0, uuids.1, uuids.2)
      && DrawsOnly(world, me, Drawn())
      && (alone ==> Unobstructed(world, me))
    }

    /** Something unforeseen has happened since that moment. */
    predicate FailedSince(from: nat)
      reads this`moments
    {
      failsAt.Some? && from <= failsAt.value < moments
    }

    function Call(): Call
      requires me in world.procs
      reads this`world
    {
      world.procs[me].call
    }

    function Phase(): Phase
      requires me in world.procs
      reads this`world
    {
      world.procs[me].phase
    }

    function Drawn(): Fresh {
      Fresh(began, uuids.0, uuids.1, uuids.2)
    }

    /** Any number of steps by any other requests, or none if it is alone. Callers rely on the contract
        alone, which says only that this request has not moved. */
    method Others()
      requires Valid()
      modifies this`world
      ensures Valid() && Reaches(me, alone, old(world), world)
      ensures world.procs[me] == old(world.procs[me]) && (alone ==> world == old(world))
    {
      ReachesSelf(me, alone, world);
    }

    /** One step of this request. */
    method Take(a: Action)
      requires Valid() && Enabled(world, a) && a.r == me && !Over(Phase())
      requires CodeStep(a) && DrawsFrom(a, Drawn())
      modifies this`world
      ensures Valid() && Reaches(me, alone, old(world), world)
      ensures Phase() == old(PhaseAfter(world, a)) && Call() == old(Call())
    {
      StepKeepsInv(start, world, a);
      StaysAvailable(world, a, uuids.0, uuids.1, uuids.2);
      StaysDrawn(world, a, Drawn());
      if alone {
        StaysUnobstructed(world, a, Step(world, a));
      }
      ReachesStep(me, alone, world, a);
      world := Step(world, a);
    }

    /** Whether something unforeseen goes wrong now: the connection drops, the pool is exhausted, a
        log line fails. If so, the transaction is rolled back and the request answered 500. */
    method Trouble() returns (broken: bool)
      requires Valid() && !Over(Phase())
      modifies this`world, this`moments
      ensures Valid() && Reaches(me, alone, old(world), world) && Call() == old(Call())
      ensures moments == old(moments) + 1 && (broken <==> FailedSince(old(moments)))
      ensures if broken then Phase() == Finished(InternalError) else world == old(world)
    {
      broken := failsAt == Some(moments);
      moments := moments + 1;
      ReachesSelf(me, alone, world);
      if broken {
        FailStep(world, me);
        Take(Fail(me));
      }
    }

    // ---------- Statements ----------

    /** The fast path's SELECT. */
    method FindFinished() returns (found: Attempt<Option<KeyRecord>>)
      requires Valid() && Phase().Reading?
      modifies this`world, this`moments
      ensures Valid() && Reaches(me, alone, old(world), world) && Call() == old(Call())
      ensures moments >= old(moments) && (found.Raised? <==> FailedSince(old(moments)))
      ensures found.Raised? ==> found.answer == InternalError && Phase() == Finished(InternalError)
      ensures found.Done? ==>
                Phase() == if found.value.Some? then Finished(Replay(found.value.value, Call())) else Missed
    {
      hide Inv, Enabled, Step, Available, DrawsOnly, Unobstructed, Reaches;
      var broken := Trouble();
      if broken {
        return Raised(InternalError);
      }
      Others();
      label waited:
      FastReadStep(world, me);
      found := Done(if Call().key in world.db.keys then Some(world.db.keys[Call().key]) else None);
      Take(FastRead(me));
      ReachesAgain(me, alone, old(world), old@waited(world), world);
    }

    /** The INSERT of the key row, which opens the write transaction. It waits while another request
        holds the key, until that request ends or lock_timeout passes. */
    method InsertKey() returns (result: Insertion)
      requires Valid() && Phase().Missed?
      modifies this`world, this`moments
      ensures Valid() && Reaches(me, alone, old(world), world) && Call() == old(Call())
      ensures result.Inserted? ==> Phase() == Holding(began, [])
      ensures result.UniqueViolation? ==> Phase() == RaceLost
      ensures result.LockNotAvailable? ==> Phase() == Finished(LockTimeout) && !alone
      ensures result.InsertBroken? ==> Phase() == Finished(InternalError)
      ensures moments >= old(moments) && (result.InsertBroken? <==> FailedSince(old(moments)))
    {
      hide Inv, Enabled, Step, Available, DrawsOnly, Unobstructed, Reaches;
      BeginTxStep(world, me, began);
      Take(Begin(me, began));
      label begun:
      Others();
      ReachesAgain(me, alone, old(world), old@begun(world), world);
      label waited:
      var broken := Trouble();
      if broken {
        ReachesAgain(me, alone, old(world), old@waited(world), world);
        return InsertBroken;
      }
      if alone {
        NeverWaitsAlone(start, world, me);
      }
      InsertStep(world, me);
      if Call().key in world.claims {
        Take(TimeOut(me));
        result := LockNotAvailable;
      } else if Call().key in world.db.keys {
        Take(Duplicate(me));
        result := UniqueViolation;
      } else {
        Take(Claim(me));
        result := Inserted;
      }
      ReachesAgain(me, alone, old(world), old@waited(world), world);
    }

    /** After losing the race: the winner's row is there to be read. */
    method FindWinner() returns (winner: Attempt<KeyRecord>)
      requires Valid() && Phase().RaceLost?
      modifies this`world, this`moments
      ensures Valid() && Reaches(me, alone, old(world), world) && Call() == old(Call())
      ensures winner.Raised? ==> winner.answer == InternalError && Phase() == Finished(InternalError)
      ensures winner.Done? ==> Phase() == Finished(Replay(winner.value, Call()))
      ensures moments >= old(moments) && (winner.Raised? <==> FailedSince(old(moments)))
    {
      hide Inv, Enabled, Step, Available, DrawsOnly, Unobstructed, Reaches;
      var broken := Trouble();
      if broken {
        return Raised(InternalError);
      }
      Others();
      label waited:
      WinnerStep(start, world, me);
      winner := Done(world.db.keys[Call().key]);
      Take(RereadWinner(me));
      ReachesAgain(me, alone, old(world), old@waited(world), world);
    }

    /** SELECT ... FOR UPDATE of the next row. It waits while another request has the row locked, and
        reads it once the lock is granted. */
    method SelectForUpdate(id: Uuid) returns (result: Selected)
      requires Valid() && Phase().Holding? && |Phase().rows| < |LockOrder(Call().body)|
      requires id == LockOrder(Call().body)[|Phase().rows|]
      modifies this`world, this`moments
      ensures Valid() && Reaches(me, alone, old(world), world) && Call() == old(Call())
      ensures result.SelectBroken? ==> Phase() == Finished(InternalError)
      ensures moments >= old(moments) && (result.SelectBroken? <==> FailedSince(old(moments)))
      ensures result.Row? ==> Phase() == Holding(old(Phase().ts), old(Phase().rows) + [result.account])
      ensures result.NoRow? ==> Phase() == Finished(AccountNotFound(id))
      ensures result.LockWaitTooLong? ==> Phase() == Finished(LockTimeout) && !alone
    {
      hide Inv, Enabled, Step, Available, DrawsOnly, Unobstructed, Reaches;
      Others();
      label waited:
      var broken := Trouble();
      if broken {
        ReachesAgain(me, alone, old(world), old@waited(world), world);
        return SelectBroken;
      }
      if alone {
        NeverWaitsAlone(start, world, me);
      }
      SelectStep(world, me);
      if id in world.rowLocks {
        Take(TimeOut(me));
        result := LockWaitTooLong;
      } else if id !in world.db.accounts {
        Take(MissRow(me));
        result := NoRow;
      } else {
        result := Row(world.db.accounts[id]);
        Take(LockRow(me));
      }
      ReachesAgain(me, alone, old(world), old@waited(world), world);
    }

    /** Sends everything the session has pending. The pending values must be the ones that follow
        from the rows read under the locks. */
    method FlushPending(pending: Writes) returns (result: Flushing)
      requires Valid()
      requires if Call().body.Transfer? then Phase().Funded? && |Phase().rows| == 2
               else Phase().Holding? && Phase().rows == []
      requires Phase().ts == began && pending == WritesOf(Call(), Phase().rows, Drawn())
      modifies this`world, this`moments
      ensures Valid() && Reaches(me, alone, old(world), world) && Call() == old(Call())
      ensures result.Sent? ==> Phase() == Flushed(Drawn(), old(Phase().rows))
      ensures result.NumericOutOfRange? ==> Phase() == Finished(AmountOutOfRange)
      ensures result.FlushBroken? ==> Phase() == Finished(InternalError)
      ensures moments >= old(moments) && (result.FlushBroken? <==> FailedSince(old(moments)))
    {
      hide Inv, Enabled, Step, DrawsOnly, Unobstructed, Reaches;
      Others();
      label waited:
      var broken := Trouble();
      if broken {
        ReachesAgain(me, alone, old(world), old@waited(world), world);
        return FlushBroken;
      }
      FlushStep(start, world, me, uuids.0, uuids.1, uuids.2);
      Take(Flush(me, uuids.0, uuids.1, uuids.2));
      result := if FitsColumns(pending) then Sent else NumericOutOfRange;
      ReachesAgain(me, alone, old(world), old@waited(world), world);
    }

    // ---------- The services ----------

    /** _lock_accounts: row locks one at a time, in ascending order of id. */
    method LockAccounts(ids: seq<Uuid>) returns (r: Attempt<map<Uuid, AccountObject>>)
      requires Valid() && Call().body.Transfer? && Phase() == Holding(began, [])
      requires ids == [Call().body.source, Call().body.destination]
      modifies this`world, this`moments
      ensures Valid() && Reaches(me, alone, old(world), world) && Call() == old(Call())
      ensures r.Raised? ==> Phase() == Finished(r.answer) && (r.answer.LockTimeout? ==> !alone)
      ensures moments >= old(moments) && (r == Raised(InternalError) <==> FailedSince(old(moments)))
      ensures r.Done? ==> Phase().Holding? && Phase().ts == began && |Phase().rows| == 2
      ensures r.Done? ==> forall id | id in ids ::
                id in r.value && fresh(r.value[id]) && r.value[id].id == id
                && r.value[id].balance == RowOf(Call().body, Phase().rows, id).balance
    {
      hide Inv, Enabled, Step, Available, DrawsOnly, Unobstructed, Reaches, Leads;
      var order := if ids[0] <= ids[1] then ids else [ids[1], ids[0]];
      var locked: map<Uuid, AccountObject> := map[];
      ghost var rows: seq<Account> := [];
      var i := 0;
      ReachesSelf(me, alone, world);
      while i < |order|
        invariant Valid() && Reaches(me, alone, old(world), world) && Call() == old(Call())
        invariant moments >= old(moments) && !FailedSince(old(moments))
        invariant 0 <= i <= |order| && order == LockOrder(Call().body)
        invariant Phase() == Holding(began, rows) && |rows| == i
        invariant forall k | 0 <= k < i ::
                    && order[k] in locked && fresh(locked[order[k]]) && locked[order[k]].id == order[k]
                    && locked[order[k]].balance == (if order[0] == order[k] then rows[0] else rows[k]).balance
      {
        label before:
        assert order[0] != order[1] by {
          NotSameAccount(start, world, me);
        }
        var selected := SelectForUpdate(order[i]);
        ReachesAgain(me, alone, old(world), old@before(world), world);
        match selected {
          case NoRow => return Raised(AccountNotFound(order[i]));
          case LockWaitTooLong => return Raised(LockTimeout);
          case SelectBroken => return Raised(InternalError);
          case Row(account) =>
            var copy := new AccountObject(order[i], account.balance);
            locked := locked[order[i] := copy];
            rows := rows + [account];
        }
        i := i + 1;
      }
      r := Done(locked);
    }

    /** _move_money: check the funds under the locks, then stage the two balances, the two entries
        and the completed key row. */
    method MoveMoney(record: KeyObject) returns (r: Attempt<Response>)
      requires Valid() && Call().body.Transfer? && Phase() == Holding(began, [])
      requires record.operation == OperationOf(Call().body) && record.hash == Call().hash
      modifies this`world, this`moments, record
      ensures Valid() && Reaches(me, alone, old(world), world) && Call() == old(Call())
      ensures r.Raised? ==> Phase() == Finished(r.answer) && (r.answer.LockTimeout? ==> !alone)
      ensures moments >= old(moments) && (r == Raised(InternalError) <==> FailedSince(old(moments)))
      ensures r.Done? ==>
                && Phase().Flushed? && Phase().drawn == Drawn()
                && r.value == ResponseTo(Call().body, Drawn())
                && record.Record() == RecordOf(Call(), Drawn())
    {
      hide Inv, Enabled, Step, Available, DrawsOnly, Unobstructed, Reaches, Leads;
      hide WritesOf, RowOf, LockOrder, PhaseAfter;
      var body := Call().body;
      var amount := body.amount;
      var locked := LockAccounts([body.source, body.destination]);
      if locked.Raised? {
        return Raised(locked.answer);
      }
      var source, destination := locked.value[body.source], locked.value[body.destination];
      NotSameAccount(start, world, me);
      label locked':
      FundsStep(world, me);
      Take(CheckFunds(me));
      ReachesAgain(me, alone, old(world), old@locked'(world), world);
      if source.balance < amount {
        return Raised(InsufficientFunds(source.id, source.balance, amount));
      }

      var transferId := uuids.0;
      source.balance := source.balance - amount;
      destination.balance := destination.balance + amount;
      var added := [Entry(uuids.1, transferId, source.id, -amount, began)];
      added := added + [Entry(uuids.2, transferId, destination.id, amount, began)];
      var response := TransferResponse(transferId, source.id, destination.id, amount, began);
      record.resourceId := Some(transferId);
      record.status := Some(201);
      record.body := Some(response);

      var balances := map[source.id := source.balance, destination.id := destination.balance];
      StagedTransfer(Call(), Phase().rows, Drawn(), source.balance, destination.balance);
      label staged:
      var flushed := FlushPending(Writes(balances, map[], added, record.Record()));
      ReachesAgain(me, alone, old(world), old@staged(world), world);
      if flushed.NumericOutOfRange? {
        return Raised(AmountOutOfRange);
      }
      if flushed.FlushBroken? {
        return Raised(InternalError);
      }
      r := Done(response);
    }

    /** _open_account: stage the account row and the completed key row. */
    method OpenAccount(record: KeyObject) returns (r: Attempt<Response>)
      requires Valid() && Call().body.Create? && Phase() == Holding(began, [])
      requires record.operation == OperationOf(Call().body) && record.hash == Call().hash
      modifies this`world, this`moments, record
      ensures Valid() && Reaches(me, alone, old(world), world) && Call() == old(Call())
      ensures r.Raised? ==> Phase() == Finished(r.answer) && (r.answer.LockTimeout? ==> !alone)
      ensures moments >= old(moments) && (r == Raised(InternalError) <==> FailedSince(old(moments)))
      ensures r.Done? ==>
                && Phase().Flushed? && Phase().drawn == Drawn()
                && r.value == ResponseTo(Call().body, Drawn())
                && record.Record() == RecordOf(Call(), Drawn())
    {
      hide Inv, Enabled, Step, Available, DrawsOnly, Unobstructed, Reaches, Leads;
      var balance := Call().body.initialBalance;
      var account := Account(balance, balance, began);
      var response := AccountResponse(uuids.0, account.balance, account.createdAt);
      record.resourceId := Some(uuids.0);
      record.status := Some(201);
      record.body := Some(response);
      var flushed := FlushPending(Writes(map[], map[uuids.0 := account], [], record.Record()));
      if flushed.NumericOutOfRange? {
        return Raised(AmountOutOfRange);
      }
      if flushed.FlushBroken? {
        return Raised(InternalError);
      }
      r := Done(response);
    }

    /** The commit, and the answer that follows it. Either may go wrong: before the commit nothing has
        happened; after it the answer is a 500 too, but the effect stays. */
    method CommitAndRespond() returns (told: bool)
      requires Valid() && Phase().Flushed? && Phase().drawn == Drawn()
      modifies this`world, this`moments
      ensures Valid() && Reaches(me, alone, old(world), world) && Call() == old(Call())
      ensures told ==> Phase() == Finished(Created(ResponseTo(Call().body, Drawn())))
      ensures !told ==> Phase() == Finished(InternalError)
      ensures moments >= old(moments) && (!told <==> FailedSince(old(moments)))
    {
      hide Inv, Enabled, Step, Available, DrawsOnly, Unobstructed, Reaches, Leads;
      Others();
      label committing:
      var broken := Trouble();
      if broken {
        ReachesAgain(me, alone, old(world), old@committing(world), world);
        return false;
      }
      CommitStep(start, world, me);
      Take(Commit(me));
      ReachesAgain(me, alone, old(world), old@committing(world), world);
      label committed:
      Others();
      ReachesAgain(me, alone, old(world), old@committed(world), world);
      label responding:
      broken := Trouble();
      if broken {
        ReachesAgain(me, alone, old(world), old@responding(world), world);
        return false;
      }
      RespondStep(world, me);
      Take(Respond(me));
      ReachesAgain(me, alone, old(world), old@responding(world), world);
      told := true;
    }

    /** execute_once: replay a finished request, or claim the key, do the work and commit. Whatever
        other requests do meanwhile, and whatever goes wrong, the run is one of the protocol's, and the
        answer is the one the protocol gives; it is a 500 exactly if something unforeseen happened. */
    method ExecuteOnce() returns (answer: Answer)
      requires Valid() && Phase().Reading?
      modifies this`world, this`moments
      ensures Valid() && Reaches(me, alone, old(world), world) && Call() == old(Call())
      ensures Phase() == Finished(answer) && (answer.LockTimeout? ==> !alone)
      ensures moments >= old(moments) && (answer.InternalError? <==> FailedSince(old(moments)))
    {
      hide Inv, Enabled, Step, Available, DrawsOnly, Unobstructed, Reaches, Leads;
      var existing := FindFinished();
      if existing.Raised? {
        return existing.answer;
      }
      if existing.value.Some? {
        return Replay(existing.value.value, Call());
      }

      label missed:
      var inserted := InsertKey();
      ReachesAgain(me, alone, old(world), old@missed(world), world);
      label inserted':
      if inserted.UniqueViolation? {
        var winner := FindWinner();
        ReachesAgain(me, alone, old(world), old@inserted'(world), world);
        return if winner.Raised? then winner.answer else Replay(winner.value, Call());
      }
      if inserted.LockNotAvailable? {
        return LockTimeout;
      }
      if inserted.InsertBroken? {
        return InternalError;
      }

      var record := new KeyObject(OperationOf(Call().body), Call().hash);
      var outcome;
      if Call().body.Transfer? {
        outcome := MoveMoney(record);
      } else {
        outcome := OpenAccount(record);
      }
      ReachesAgain(me, alone, old(world), old@inserted'(world), world);
      if outcome.Raised? {
        return outcome.answer;
      }

      label performed:
      var told := CommitAndRespond();
      ReachesAgain(me, alone, old(world), old@performed(world), world);
      answer := if told then Created(outcome.value) else InternalError;
    }

    /** execute_transfer and create_account: a same-account transfer is refused before the key is
        looked at. The answer is what the sequential ledger says at the request's place in the serial
        order, or a timeout, after which the request has no place there, or a 500, after which it has
        none or was carried out. By itself, and if nothing unforeseen happens, it does exactly what the
        sequential ledger does to the database it found. */
    method Serve() returns (answer: Answer)
      requires Valid() && Phase().Received?
      modifies this`world, this`moments
      ensures Valid() && Reaches(me, alone, old(world), world) && Call() == old(Call())
      ensures Phase() == Finished(answer) && (answer.LockTimeout? ==> !alone)
      ensures moments >= old(moments) && (answer.InternalError? <==> FailedSince(old(moments)))
      ensures forall i | 0 <= i < |world.log| && world.log[i].rid == me ::
                !answer.LockTimeout? && (answer.InternalError? ==> world.log[i].answer.Created?)
      ensures Incidental(answer) ||
              exists i | 0 <= i < |world.log| ::
                && world.log[i].rid == me && world.log[i].call == Call()
                && answer == Apply(State(start, world.log[..i]), Call(), world.log[i].drawn).answer
      ensures alone && !FailedSince(old(moments)) ==>
                Reply(world.db, answer) == Apply(old(world.db), Call(), Drawn())
      ensures alone && FailedSince(old(moments)) ==>
                world.db == old(world.db) || world.db == Apply(old(world.db), Call(), Drawn()).db
    {
      hide Inv, Enabled, Step, Available, DrawsOnly, Unobstructed, Reaches, Leads, Apply, State;
      Others();
      label arrived:
      ValidateStep(world, me);
      Take(Validate(me));
      ReachesAgain(me, alone, old(world), old@arrived(world), world);
      label validated:
      if SameAccount(Call().body) {
        answer := SameAccountTransfer;
      } else {
        answer := ExecuteOnce();
        ReachesAgain(me, alone, old(world), old@validated(world), world);
      }
      PlaceOfAnswer(start, world, me, answer);
      if alone {
        ByItself(start, old(world), world, me, Drawn(), answer);
      }
    }
  }

  lemma NotSameAccount(start: Db, w: World, r: Rid)
    requires Inv(start, w) && r in w.procs && InTx(w.procs[r].phase)
    ensures !SameAccount(w.procs[r].call.body)
    ensures w.procs[r].call.body.Transfer? ==> LockOrder(w.procs[r].call.body)[0] != LockOrder(w.procs[r].call.body)[1]
  {
    assert ProcOk(w, r);
  }

  lemma Undrawn(start: Db, w: World, r: Rid, f: Fresh)
    requires Inv(start, w) && r in w.procs && w.procs[r].phase.Received?
    ensures DrawsOnly(w, r, f)
  {
    assert ProcOk(w, r);
  }

  lemma NeverWaitsAlone(start: Db, w: World, r: Rid)
    requires Inv(start, w) && r in w.procs && Unobstructed(w, r)
    ensures w.procs[r].phase.Claiming? ==> w.procs[r].call.key !in w.claims
    ensures var order := LockOrder(w.procs[r].call.body);
            w.procs[r].phase.Holding? && |w.procs[r].phase.rows| < |order| ==>
              order[|w.procs[r].phase.rows|] !in w.rowLocks
  {
    UnobstructedNeverWaits(start, w, r);
  }

  /** What a request that ran by itself has done to the database. */
  lemma ByItself(start: Db, w: World, w': World, r: Rid, f: Fresh, answer: Answer)
    requires Inv(start, w) && r in w.procs && w.procs[r].phase.Received?
    requires Reaches(r, true, w, w')
    requires r in w'.procs && w'.procs[r].phase == Finished(answer) && DrawsOnly(w', r, f)
    ensures !Incidental(answer) ==> Reply(w'.db, answer) == Apply(w.db, w.procs[r].call, f)
    ensures Incidental(answer) ==> w'.db == w.db || w'.db == Apply(w.db, w.procs[r].call, f).db
  {
    hide Leads, Apply;
    var acts :| Leads(w, acts, w') && Permitted(acts, r, true);
    assert AllBy(acts, r);
    SoloLog(start, w, acts, w', r);
    assert ProcOk(w, r) && ProcOk(w', r);
    if w'.log != w.log {
      var d := w'.log[|w.log|];
      SerialAt(start, w'.log, |w.log|);
      assert w'.log[..|w.log|] == w.log && w'.log[..|w.log| + 1] == w'.log;
      if !d.answer.Created? {
        RefusalsIgnoreWhatWasDrawn(w.db, w.procs[r].call, d.drawn, f);
      }
    }
  }

  lemma PlaceOfAnswer(start: Db, w: World, r: Rid, answer: Answer)
    requires Inv(start, w) && r in w.procs && w.procs[r].phase == Finished(answer)
    ensures forall i | 0 <= i < |w.log| && w.log[i].rid == r ::
              !answer.LockTimeout? && (answer.InternalError? ==> w.log[i].answer.Created?)
    ensures Incidental(answer) ||
            exists i | 0 <= i < |w.log| ::
              && w.log[i].rid == r && w.log[i].call == w.procs[r].call
              && answer == Apply(State(start, w.log[..i]), w.procs[r].call, w.log[i].drawn).answer
  {
    assert ProcOk(w, r);
    if !Incidental(answer) {
      var i := PlaceInLog(w, r, answer);
      SerialAt(start, w.log, i);
    }
  }
}
