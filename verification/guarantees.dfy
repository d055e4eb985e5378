/** What the protocol promises its clients, over every run of every interleaving. */
module Guarantees {
  import opened Models
  import opened Requests
  import opened Ledger
  import opened History
  import opened Protocol
  import opened Invariants

  // ---------- Serial refinement ----------

  /** What r was told, or will be told: an answer that depends on the ledger. */
  ghost predicate Answered(w: World, r: Rid, answer: Answer) {
    && r in w.procs && !Incidental(answer)
    && (w.procs[r].phase == Finished(answer)
        || (answer.Created? && w.procs[r].phase == Committed(answer.response)))
  }

  lemma RunInv(w0: World, acts: seq<Action>, w: World)
    requires Initial(w0) && Leads(w0, acts, w)
    ensures Inv(w0.db, w) && LedgerOk(w.db)
  {
    InitialInv(w0);
    RunKeepsInv(w0.db, w0, acts, w);
    LedgerStaysOk(w0.db, w);
  }

  /** Every interleaving is equivalent to serving the requests one at a time, in the order their
      outcomes were decided: the same answers, and the same database. */
  lemma EveryRunIsSerial(w0: World, acts: seq<Action>, w: World)
    requires Initial(w0) && Leads(w0, acts, w)
    ensures Serial(w0.db, w.log) && State(w0.db, w.log) == w.db
    ensures forall r, answer | Answered(w, r, answer) ::
              exists i | 0 <= i < |w.log| ::
                w.log[i].rid == r && w.log[i].call == w.procs[r].call && w.log[i].answer == answer
    ensures forall i, j | 0 <= i < j < |w.log| :: w.log[i].rid != w.log[j].rid
  {
    RunInv(w0, acts, w);
    forall r, answer | Answered(w, r, answer)
      ensures exists i | 0 <= i < |w.log| ::
                w.log[i].rid == r && w.log[i].call == w.procs[r].call && w.log[i].answer == answer
    {
      var i := PlaceInLog(w, r, answer);
    }
  }

  lemma PlaceInLog(w: World, r: Rid, answer: Answer) returns (i: nat)
    requires ProcsOk(w) && Answered(w, r, answer)
    ensures i < |w.log| && w.procs[r].decided == Some(i)
    ensures w.log[i].rid == r && w.log[i].call == w.procs[r].call && w.log[i].answer == answer
  {
    assert ProcOk(w, r);
    i := w.procs[r].decided.value;
  }

  lemma {:induction false} LogOnlyGrows(w: World, acts: seq<Action>, w': World)
    requires Leads(w, acts, w')
    ensures w.log <= w'.log
    decreases |acts|
  {
    hide Leads, Enabled, Step;
    if acts == [] {
      StandingStill(w, w');
    } else {
      var before := LastStep(w, acts, w');
      LogOnlyGrows(w, acts[..|acts| - 1], before);
    }
  }

  /** The serial order respects real time: a request that arrives after another was answered is
      also served after it. */
  lemma SerialOrderRespectsRealTime(
    w0: World, before: seq<Action>, w: World, after: seq<Action>, w': World, s: Rid, i: nat, j: nat)
    requires Initial(w0) && Leads(w0, before, w) && Leads(w, after, w')
    requires i < |w.log| && s !in w.procs
    requires j < |w'.log| && w'.log[j].rid == s
    ensures i < j && w'.log[i] == w.log[i]
  {
    RunInv(w0, before, w);
    LogOnlyGrows(w, after, w');
    assert forall k | 0 <= k < |w.log| :: w.log[k].rid in w.procs;
  }

  // ---------- Exactly once ----------

  /** No two requests with one key are both answered 201. */
  lemma AtMostOneCreated(w0: World, acts: seq<Action>, w: World, r: Rid, s: Rid, a: Response, b: Response)
    requires Initial(w0) && Leads(w0, acts, w)
    requires Answered(w, r, Created(a)) && Answered(w, s, Created(b))
    requires w.procs[r].call.key == w.procs[s].call.key
    ensures r == s
  {
    RunInv(w0, acts, w);
    var i := PlaceInLog(w, r, Created(a));
    var j := PlaceInLog(w, s, Created(b));
    OneSuccess(w0.db, w.log, i, j);
  }

  /** Nor are two of them carried out, whatever was answered, whoever crashed, and however often the
      request was sent again; and none is if the key was used before the run. */
  lemma OneEffectPerKey(w0: World, acts: seq<Action>, w: World, i: nat, j: nat)
    requires Initial(w0) && Leads(w0, acts, w)
    requires i < |w.log| && w.log[i].answer.Created? && j < |w.log| && w.log[j].answer.Created?
    requires w.log[i].call.key == w.log[j].call.key
    ensures i == j && w.log[i].call.key !in w0.db.keys
  {
    RunInv(w0, acts, w);
    OneSuccess(w0.db, w.log, i, j);
    SerialAt(w0.db, w.log, i);
    NothingIsForgotten(w0.db, w.log[..i], 0);
    assert w.log[..i][..0] == [];
  }

  /** The effect of a request that was carried out, as it stands in the tables. */
  ghost predicate InEffect(db: Db, call: Call, response: Response) {
    && call.key in db.keys
    && (var record := db.keys[call.key];
        && record.operation == OperationOf(call.body) && record.hash == call.hash
        && record.status == Some(201) && record.body == Some(response))
    && match response
       case TransferResponse(t, s, d, amount, ts) =>
         && call.body == Transfer(s, d, amount)
         && db.keys[call.key].resourceId == Some(t)
         && exists i | 0 <= i < |db.entries| - 1 :: AreLegs(db.entries[i], db.entries[i + 1], t, s, d, amount, ts)
       case AccountResponse(id, balance, ts) =>
         && call.body == Create(balance)
         && db.keys[call.key].resourceId == Some(id)
         && id in db.accounts && db.accounts[id].opening == balance && db.accounts[id].createdAt == ts
  }

  ghost predicate AreLegs(a: Entry, b: Entry, t: Uuid, s: Uuid, d: Uuid, amount: int, ts: int) {
    && a.transferId == b.transferId == t && a.createdAt == b.createdAt == ts
    && a.accountId == s && a.amount == -amount
    && b.accountId == d && b.amount == amount
  }

  lemma AppliedIsInEffect(db: Db, call: Call, f: Fresh)
    requires Apply(db, call, f).answer.Created?
    ensures InEffect(Apply(db, call, f).db, call, ResponseTo(call.body, f))
  {
    var now := Apply(db, call, f).db;
    if call.body.Transfer? {
      var Transfer(s, d, amount) := call.body;
      var i := |db.entries|;
      assert AreLegs(now.entries[i], now.entries[i + 1], f.resource, s, d, amount, f.ts);
    }
  }

  lemma AccountsStay(db: Db, call: Call, f: Fresh, id: Uuid)
    requires id in db.accounts
    requires Apply(db, call, f).answer.Created? ==> FreshFor(db, f)
    ensures id in Apply(db, call, f).db.accounts
    ensures Apply(db, call, f).db.accounts[id].opening == db.accounts[id].opening
    ensures Apply(db, call, f).db.accounts[id].createdAt == db.accounts[id].createdAt
  {
  }

  lemma EffectSurvives(db: Db, call: Call, f: Fresh, earlier: Call, response: Response)
    requires InEffect(db, earlier, response)
    requires Apply(db, call, f).answer.Created? ==> FreshFor(db, f)
    ensures InEffect(Apply(db, call, f).db, earlier, response)
  {
    var now := Apply(db, call, f).db;
    ApplyExtends(db, call, f);
    match response {
      case TransferResponse(t, s, d, amount, ts) =>
        var i :| 0 <= i < |db.entries| - 1 && AreLegs(db.entries[i], db.entries[i + 1], t, s, d, amount, ts);
        assert now.entries[i] == db.entries[i] && now.entries[i + 1] == db.entries[i + 1];
      case AccountResponse(id, balance, ts) =>
        AccountsStay(db, call, f, id);
    }
  }

  lemma {:induction false} SuccessIsInEffect(start: Db, log: seq<Decision>, i: nat)
    requires Serial(start, log) && i < |log| && log[i].answer.Created?
    ensures InEffect(State(start, log), log[i].call, log[i].answer.response)
  {
    var prefix, last := log[..|log| - 1], log[|log| - 1];
    if i == |log| - 1 {
      AppliedIsInEffect(State(start, prefix), last.call, last.drawn);
      ApplyStoresTheRecord(State(start, prefix), last.call, last.drawn);
    } else {
      SuccessIsInEffect(start, prefix, i);
      EffectSurvives(State(start, prefix), last.call, last.drawn, log[i].call, log[i].answer.response);
    }
  }

  /** Money moves exactly once per key: a 201 means the effect is in the tables and stays there,
      and a 200 repeats the response of the one request that put it there, which asked for the
      same thing. */
  lemma AnswersTellTheTruth(w0: World, acts: seq<Action>, w: World, r: Rid, answer: Answer)
    requires Initial(w0) && Leads(w0, acts, w)
    requires Answered(w, r, answer) && w.procs[r].call.key !in w0.db.keys
    ensures answer.Created? ==> InEffect(w.db, w.procs[r].call, answer.response)
    ensures answer.Replayed? ==>
              && answer.body.Some?
              && InEffect(w.db, w.procs[r].call, answer.body.value)
              && exists i | 0 <= i < |w.log| ::
                   && w.log[i].rid != r && w.log[i].answer == Created(answer.body.value)
                   && w.log[i].call.key == w.procs[r].call.key
                   && w.log[i].call.body == w.procs[r].call.body
  {
    hide Initial, Leads, TablesOk, LedgerOk, InEffect;
    RunInv(w0, acts, w);
    var j := PlaceInLog(w, r, answer);
    if answer.Created? {
      SuccessIsInEffect(w0.db, w.log, j);
    } else if answer.Replayed? {
      var i := AuthorOf(w0.db, w.log, j);
      SuccessIsInEffect(w0.db, w.log, i);
      assert w.log[i].rid != r;
      LogIsAdmitted(w0, acts, w, i);
      LogIsAdmitted(w0, acts, w, j);
      SameHashSameBody(w.log[i].call, w.log[j].call);
    }
  }

  lemma {:induction false} CallsAreAdmitted(w0: World, acts: seq<Action>, w: World, r: Rid)
    requires w0.procs == map[] && Leads(w0, acts, w) && r in w.procs
    ensures Admitted(w.procs[r].call)
    decreases |acts|
  {
    hide Leads, Admitted;
    if acts == [] {
      StandingStill(w0, w);
    } else {
      var before := LastStep(w0, acts, w);
      if r in before.procs {
        CallsAreAdmitted(w0, acts[..|acts| - 1], before, r);
      }
    }
  }

  lemma LogIsAdmitted(w0: World, acts: seq<Action>, w: World, i: nat)
    requires Initial(w0) && Leads(w0, acts, w) && i < |w.log|
    ensures Admitted(w.log[i].call)
  {
    RunInv(w0, acts, w);
    CallsAreAdmitted(w0, acts, w, w.log[i].rid);
    assert ProcOk(w, w.log[i].rid);
  }

  /** A 409 is given only to a request whose operation or fingerprint differs from the one its key
      was used for. */
  lemma ConflictsAreDeserved(w0: World, acts: seq<Action>, w: World, r: Rid, op: Operation)
    requires Initial(w0) && Leads(w0, acts, w)
    requires Answered(w, r, KeyConflict(op)) && w.procs[r].call.key !in w0.db.keys
    ensures exists i | 0 <= i < |w.log| ::
              && w.log[i].answer.Created? && w.log[i].call.key == w.procs[r].call.key
              && (op.CreateTransfer? <==> w.log[i].call.body.Transfer?)
              && ((op.CreateTransfer? <==> w.procs[r].call.body.Create?) || w.log[i].call.hash != w.procs[r].call.hash)
  {
    RunInv(w0, acts, w);
    var j := PlaceInLog(w, r, KeyConflict(op));
    var i := AuthorOf(w0.db, w.log, j);
  }

  /** A request under a key that was used before the run is answered from that key's record: its body
      for the same operation and fingerprint, a 409 naming its operation for any other. */
  lemma OldKeysAnswerFromTheirRecord(w0: World, acts: seq<Action>, w: World, r: Rid, answer: Answer)
    requires Initial(w0) && Leads(w0, acts, w)
    requires Answered(w, r, answer) && w.procs[r].call.key in w0.db.keys
    ensures var call := w.procs[r].call;
            var record := w0.db.keys[call.key];
            answer == if call.body.Transfer? && call.body.source == call.body.destination then SameAccountTransfer
                      else if (record.operation.CreateTransfer? <==> call.body.Transfer?) && record.hash == call.hash
                      then Replayed(record.body)
                      else KeyConflict(record.operation)
    ensures answer.Replayed? ==> answer.body.Some?
  {
    RunInv(w0, acts, w);
    var i := PlaceInLog(w, r, answer);
    SerialAt(w0.db, w.log, i);
    NothingIsForgotten(w0.db, w.log[..i], 0);
    assert w.log[..i][..0] == [];
  }

  // ---------- Conservation ----------

  /** In every reachable state: entries net to zero, overall and per transfer; every balance is its
      opening balance plus its entries, within its column's range; total value has grown by exactly
      the opening balances recorded under the keys used since. */
  lemma MoneyIsAccountedFor(w0: World, acts: seq<Action>, w: World)
    requires Initial(w0) && Leads(w0, acts, w)
    ensures CacheHonest(w.db) && InBounds(w.db)
    ensures Sum(w.db.entries, All) == 0
    ensures forall t :: Sum(w.db.entries, OfTransfer(t)) == 0
    ensures TotalBalance(w.db) == TotalOpening(w.db) == TotalBalance(w0.db) + Minted(w.log)
    ensures Minted(w.log) == TotalMinted(w.db) - TotalMinted(w0.db)
    ensures w.db.entries == w0.db.entries + Effects(w.log)
  {
    RunInv(w0, acts, w);
    MoneyIsConserved(w.db);
    TotalIsMinted(w0.db, w.log);
    MintedIsByKeys(w0.db, w.log);
    EntriesAreTheEffects(w0.db, w.log);
  }

  // ---------- Failures and dead branches ----------

  /** No claim and no row lock is r's. */
  ghost predicate HoldsNothing(w: World, r: Rid) {
    && (forall k | k in w.claims :: w.claims[k] != r)
    && (forall id | id in w.rowLocks :: w.rowLocks[id] != r)
  }

  lemma NothingHeld(w: World, r: Rid)
    requires TablesOk(w) && r in w.procs && !InTx(w.procs[r].phase)
    ensures HoldsNothing(w, r)
  {
  }

  /** The request was answered, and not by a 201 or a 500. */
  predicate TurnedDown(p: Proc) {
    p.phase.Finished? && !p.phase.answer.Created? && !p.phase.answer.InternalError?
  }

  /** The database is what the carried-out requests alone would have made of it, served in turn; a
      request that was turned down, or gave up before its commit, is not among them; and one outside
      its transaction holds nothing. */
  lemma FailuresLeaveNoTrace(w0: World, acts: seq<Action>, w: World, r: Rid)
    requires Initial(w0) && Leads(w0, acts, w) && r in w.procs
    ensures Serial(w0.db, Carried(w.log)) && State(w0.db, Carried(w.log)) == w.db
    ensures TurnedDown(w.procs[r]) || w.procs[r].decided.None? ==>
              forall d | d in Carried(w.log) :: d.rid != r
    ensures !InTx(w.procs[r].phase) ==> HoldsNothing(w, r)
  {
    RunInv(w0, acts, w);
    CarriedSuffices(w0.db, w.log);
    assert ProcOk(w, r);
    if !InTx(w.procs[r].phase) {
      NothingHeld(w, r);
    }
    forall d | d in Carried(w.log) && d.rid == r
      ensures w.procs[r].decided.Some? && w.log[w.procs[r].decided.value].answer.Created?
    {
      CarriedMembers(w.log, d);
      var i :| 0 <= i < |w.log| && w.log[i] == d;
    }
  }

  lemma TimingOutIsWaiting(w: World, a: Action)
    requires Enabled(w, a) && (a.TimeOut? || a.DeadlockVictim?)
    ensures a.r in w.procs && WaitsFor(w, a.r).Some?
  {
    if a.DeadlockVictim? {
      VictimsWait(w, a.r);
    }
  }

  lemma BackstopsNeverFireHere(start: Db, w: World, a: Action, phase: Phase)
    requires Inv(start, w) && Enabled(w, a) && phase == Step(w, a).procs[a.r].phase
    ensures phase == Finished(InternalError) ==> a.Fail?
    ensures phase == Finished(LockTimeout) ==> (a.TimeOut? || a.DeadlockVictim?) && WaitsFor(w, a.r).Some?
    ensures phase == Dead ==> a.Crash?
  {
    if a.RereadWinner? {
      RereadFindsTheWinner(w, a.r);
    }
    if Refuses(w, a) {
      RefusalStep(w, a);
      hide Inv, Step, Enabled, Refuses, RefusalOf;
    } else if GivesUp(w, a) {
      GiveUpStep(w, a);
      if a.TimeOut? || a.DeadlockVictim? {
        TimingOutIsWaiting(w, a);
      }
      hide Inv, Step, Enabled;
    } else if Advances(w, a) {
      AdvanceStep(w, a);
      hide Inv, Step, Enabled;
    } else if a.Commit? {
      assert ProcOk(w, a.r);
      CommitSteps(w, a.r);
      hide Inv, Step, Enabled;
    } else if a.Flush? {
      assert ProcOk(w, a.r);
      LedgerStaysOk(start, w);
      OverflowIsSequential(w, a.r, Fresh(w.procs[a.r].phase.ts, a.resource, a.debit, a.credit));
      hide Inv;
    } else {
      hide Inv;
      assert a.Arrive? || a.Claim? || a.LockRow?;
    }
  }

  /** The code's own checks never fail it: a 500 is always some other exception, and a 503 a wait
      that took too long. So the CHECK constraints, the conservation trigger and the
      "record vanished" branch never fire. */
  lemma BackstopsNeverFire(w0: World, acts: seq<Action>, w: World, a: Action)
    requires Initial(w0) && Leads(w0, acts, w) && Enabled(w, a)
    ensures var phase := Step(w, a).procs[a.r].phase;
            && (phase == Finished(InternalError) ==> a.Fail?)
            && (phase == Finished(LockTimeout) ==> (a.TimeOut? || a.DeadlockVictim?) && WaitsFor(w, a.r).Some?)
            && (phase == Dead ==> a.Crash?)
  {
    hide Leads, Initial, Enabled, Step, Inv;
    RunInv(w0, acts, w);
    BackstopsNeverFireHere(w0.db, w, a, Step(w, a).procs[a.r].phase);
  }

  /** Losing the race for a key proves that its winner committed, with its response filled in: a
      replay never has an empty body. */
  lemma RaceLosersFindACompleteRecord(w0: World, acts: seq<Action>, w: World, r: Rid)
    requires Initial(w0) && Leads(w0, acts, w) && r in w.procs
    ensures w.procs[r].phase.RaceLost? ==>
              var key := w.procs[r].call.key;
              && key in w.db.keys && w.db.keys[key].resourceId.Some?
              && w.db.keys[key].status == Some(201) && w.db.keys[key].body.Some?
    ensures w.procs[r].phase.Finished? && w.procs[r].phase.answer.Replayed? ==> w.procs[r].phase.answer.body.Some?
  {
    RunInv(w0, acts, w);
    assert ProcOk(w, r);
    if w.procs[r].phase.Finished? && w.procs[r].phase.answer.Replayed? {
      var j := PlaceInLog(w, r, w.procs[r].phase.answer);
      SerialAt(w0.db, w.log, j);
      SerialKeepsLedgerOk(w0.db, w.log[..j]);
      ReplayedFromTheTable(State(w0.db, w.log[..j]), w.log[j].call, w.log[j].drawn);
    }
  }

  lemma ReplayedFromTheTable(db: Db, call: Call, f: Fresh)
    requires KeysComplete(db) && Apply(db, call, f).answer.Replayed?
    ensures Apply(db, call, f).answer.body.Some?
  {
  }

  // ---------- Locks ----------

  /** A request whose transaction is over never opens another. */
  predicate AfterTx(phase: Phase) {
    phase.RaceLost? || phase.Committed? || Over(phase)
  }

  /** The transaction goes on, with at least the rows it had, or it is over. */
  predicate GoesOn(before: Phase, after: Phase) {
    AfterTx(after) || (InTx(before) && InTx(after) && before.rows <= after.rows)
  }

  lemma StepGoesOn(w: World, a: Action, r: Rid)
    requires Enabled(w, a) && r in w.procs && (InTx(w.procs[r].phase) || AfterTx(w.procs[r].phase))
    ensures GoesOn(w.procs[r].phase, Step(w, a).procs[r].phase)
  {
    if r == a.r {
      hide Step, Enabled, Refuses, GivesUp, Advances, RefusalOf;
      if Refuses(w, a) {
        RefusalStep(w, a);
      } else if GivesUp(w, a) {
        GiveUpStep(w, a);
      } else if Advances(w, a) {
        AdvanceStep(w, a);
        AdvanceGoesOn(w, a);
      } else {
        OthersGoOn(w, a);
      }
    } else {
      hide Step, Enabled;
    }
  }

  lemma AdvanceGoesOn(w: World, a: Action)
    requires Enabled(w, a) && Advances(w, a) && (InTx(w.procs[a.r].phase) || AfterTx(w.procs[a.r].phase))
    ensures GoesOn(w.procs[a.r].phase, NextPhase(w, a))
  {
  }

  lemma OthersGoOn(w: World, a: Action)
    requires Enabled(w, a) && !Refuses(w, a) && !GivesUp(w, a) && !Advances(w, a)
    requires a.r in w.procs && (InTx(w.procs[a.r].phase) || AfterTx(w.procs[a.r].phase))
    ensures GoesOn(w.procs[a.r].phase, Step(w, a).procs[a.r].phase)
  {
    hide TriggerAccepts, PassesChecks, FitsColumns, WritesOf, Publish, Deadlocked;
  }

  lemma {:induction false} TransactionGoesOn(w: World, acts: seq<Action>, w': World, r: Rid)
    requires Leads(w, acts, w') && r in w.procs && InTx(w.procs[r].phase)
    ensures r in w'.procs && w'.procs[r].call == w.procs[r].call
    ensures GoesOn(w.procs[r].phase, w'.procs[r].phase)
    decreases |acts|
  {
    hide Leads, Enabled, Step;
    if acts == [] {
      StandingStill(w, w');
    } else {
      var before := LastStep(w, acts, w');
      TransactionGoesOn(w, acts[..|acts| - 1], before, r);
      StepGoesOn(before, acts[|acts| - 1], r);
    }
  }

  lemma HeldRowsAreCurrent(start: Db, w: World, r: Rid, i: nat)
    requires Inv(start, w) && r in w.procs && i < |Rows(w.procs[r].phase)|
    ensures i < |LockOrder(w.procs[r].call.body)|
    ensures var id := LockOrder(w.procs[r].call.body)[i];
            && id in w.rowLocks && w.rowLocks[id] == r
            && id in w.db.accounts && w.db.accounts[id] == Rows(w.procs[r].phase)[i]
            && w.procs[r].call.key !in w.db.keys
  {
    assert ProcOk(w, r);
  }

  /** From the moment a request has locked and read a row until its transaction is over, whatever
      others do, the committed row is the one it read. */
  lemma LockedRowsAreStable(w0: World, before: seq<Action>, w: World, after: seq<Action>, w': World, r: Rid, i: nat)
    requires Initial(w0) && Leads(w0, before, w) && Leads(w, after, w')
    requires r in w.procs && i < |Rows(w.procs[r].phase)|
    requires r in w'.procs && InTx(w'.procs[r].phase)
    ensures i < |LockOrder(w.procs[r].call.body)|
    ensures var id := LockOrder(w.procs[r].call.body)[i];
            && id in w.db.accounts && id in w'.db.accounts
            && w'.db.accounts[id] == w.db.accounts[id] == Rows(w.procs[r].phase)[i]
            && id in w'.rowLocks && w'.rowLocks[id] == r && w'.procs[r].call.key !in w'.db.keys
  {
    hide Leads, Initial, Inv, LedgerOk;
    RunInv(w0, before, w);
    RunKeepsInv(w0.db, w, after, w');
    TransactionGoesOn(w, after, w', r);
    HeldRowsAreCurrent(w0.db, w, r, i);
    HeldRowsAreCurrent(w0.db, w', r, i);
  }

  /** A request waiting for a key holds nothing; one waiting for a row holds its key and only rows
      with smaller ids. */
  lemma WaitersHoldLittle(w0: World, acts: seq<Action>, w: World, r: Rid)
    requires Initial(w0) && Leads(w0, acts, w) && r in w.procs && WaitsFor(w, r).Some?
    ensures w.procs[r].phase.Claiming? ==>
              HoldsNothing(w, r)
    ensures w.procs[r].phase.Holding? ==>
              var awaited := LockOrder(w.procs[r].call.body)[|w.procs[r].phase.rows|];
              && (forall k | k in w.claims :: w.claims[k] == r <==> k == w.procs[r].call.key)
              && (forall id | id in w.rowLocks && w.rowLocks[id] == r :: id < awaited)
  {
    RunInv(w0, acts, w);
    assert ProcOk(w, r);
  }
}
