/** Outcomes that do not depend on the schedule. */
module Outcomes {
  import opened Models
  import opened Requests
  import opened Ledger
  import opened History
  import opened Movements
  import opened Protocol
  import opened Invariants
  import opened Guarantees

  /** The request has been answered by what the ledger says: no timeout, no crash. */
  ghost predicate Settled(w: World, r: Rid) {
    r in w.procs && w.procs[r].phase.Finished? && !Incidental(w.procs[r].phase.answer)
  }

  // ---------- One key, many bodies ----------

  /** Many requests race under one key. If all are answered, either every one is refused on its own
      merits, or exactly one is carried out and each other one is answered from its response, refused
      as a different request, or refused on its own merits. */
  lemma OneKeyOneWinner(w0: World, acts: seq<Action>, w: World, key: string)
    requires Initial(w0) && Leads(w0, acts, w) && key !in w0.db.keys
    requires forall r | r in w.procs && w.procs[r].call.key == key :: Settled(w, r)
    ensures || (forall r | r in w.procs && w.procs[r].call.key == key ::
                  Settled(w, r) && Refusal(w.procs[r].phase.answer))
            || (exists winner | winner in w.procs && w.procs[winner].call.key == key ::
                  && Settled(w, winner) && w.procs[winner].phase.answer.Created?
                  && forall r | r in w.procs && w.procs[r].call.key == key && r != winner ::
                       Settled(w, r)
                       && (|| Refusal(w.procs[r].phase.answer)
                           || w.procs[r].phase.answer == Shared(w.procs[winner], w.procs[r].call)))
  {
    RunInv(w0, acts, w);
    if i :| 0 <= i < |w.log| && w.log[i].call.key == key && w.log[i].answer.Created? {
      var winner := w.log[i].rid;
      WinnerWasTold(w, i);
      assert Settled(w, winner);
      forall r | r in w.procs && w.procs[r].call.key == key && r != winner
        ensures Refusal(w.procs[r].phase.answer)
             || w.procs[r].phase.answer == Shared(w.procs[winner], w.procs[r].call)
      {
        assert Settled(w, r);
        var j := PlaceInLog(w, r, w.procs[r].phase.answer);
        LoserWasTold(w0.db, w.log, key, i, j);
      }
    } else {
      forall r | r in w.procs && w.procs[r].call.key == key ensures Refusal(w.procs[r].phase.answer) {
        assert Settled(w, r);
        var j := PlaceInLog(w, r, w.procs[r].phase.answer);
        BeforeSuccess(w0.db, w.log, key, j);
      }
    }
  }

  /** The answer the others get once winner's request has been carried out. */
  ghost function Shared(winner: Proc, other: Call): Answer
    requires winner.phase.Finished? && winner.phase.answer.Created?
  {
    AnswerAfter(Decision(0, winner.call, NOTHING_DRAWN, winner.phase.answer), other)
  }

  lemma WinnerWasTold(w: World, i: nat)
    requires ProcsOk(w) && i < |w.log| && w.log[i].rid in w.procs && w.procs[w.log[i].rid].decided == Some(i)
    ensures w.procs[w.log[i].rid].call == w.log[i].call
    ensures Settled(w, w.log[i].rid) ==> w.procs[w.log[i].rid].phase.answer == w.log[i].answer
  {
    assert ProcOk(w, w.log[i].rid);
  }

  lemma LoserWasTold(start: Db, log: seq<Decision>, key: string, i: nat, j: nat)
    requires Serial(start, log) && key !in start.keys && i < |log| && j < |log| && i != j
    requires log[i].call.key == log[j].call.key == key && log[i].answer.Created?
    ensures Refusal(log[j].answer) || log[j].answer == AnswerAfter(log[i], log[j].call)
  {
    if i < j {
      AfterSuccess(start, log, i, j);
    } else {
      forall k | 0 <= k <= j && log[k].call.key == key ensures !log[k].answer.Created? {
        if log[k].answer.Created? {
          OneSuccess(start, log, k, i);
        }
      }
      BeforeSuccess(start, log, key, j);
    }
  }

  // ---------- Requests nothing can refuse ----------

  /** What the requests seen so far ask to move, leaving out those under one key. */
  ghost function Shares(w: World, flow: Flow, key: string): map<Rid, int> {
    map r | r in w.procs :: Share(flow, w.procs[r].call, key)
  }

  ghost function Asked(w: World, flow: Flow, key: string): int {
    Total<Rid>(Shares(w, flow, key))
  }

  /** A transfer between two accounts that were there from the start, to one that stays in range even
      if it receives everything else that was asked for. */
  ghost predicate HasRoom(w0: World, w: World, call: Call) {
    && call.body.Transfer? && call.body.source != call.body.destination
    && call.body.source in w0.db.accounts && call.body.destination in w0.db.accounts
    && w0.db.accounts[call.body.destination].balance + Asked(w, Into(call.body.destination), call.key)
       + call.body.amount <= MAX_MONEY
  }

  /** A request that can be carried out whatever else is served first, except under its own key: an
      account to open, or a transfer that has room and that its source covers even if all its other
      debits go first. */
  ghost predicate Executable(w0: World, w: World, call: Call) {
    || call.body.Create?
    || (&& HasRoom(w0, w, call)
        && w0.db.accounts[call.body.source].balance - Asked(w, OutOf(call.body.source), call.key)
           >= call.body.amount)
  }

  lemma LogHasCalls(start: Db, w: World, i: nat)
    requires Inv(start, w) && i < |w.log|
    ensures w.log[i].rid in w.procs && w.procs[w.log[i].rid].call == w.log[i].call
    ensures w.procs[w.log[i].rid].decided == Some(i)
  {
    assert ProcOk(w, w.log[i].rid);
  }

  lemma AskedIsEnough(start: Db, w: World, flow: Flow, key: string, j: nat)
    requires Inv(start, w) && j <= |w.log|
    ensures Attempted(w.log[..j], flow, key) <= Asked(w, flow, key)
  {
    forall i | 0 <= i < |w.log| ensures w.log[i].rid in w.procs && w.procs[w.log[i].rid].call == w.log[i].call {
      LogHasCalls(start, w, i);
    }
    forall r | r in w.procs ensures Share(flow, w.procs[r].call, key) >= 0 {
      assert ProcOk(w, r);
    }
    AttemptedWithin(w.log[..j], flow, key, Shares(w, flow, key));
  }

  lemma FirstUseWithRoom(start: World, w: World, j: nat)
    requires Inv(start.db, w) && j < |w.log| && w.log[j].call.key !in start.db.keys
    requires KeyUnused(w.log[..j], w.log[j].call.key) && HasRoom(start, w, w.log[j].call)
    ensures w.log[j].answer.Created? || w.log[j].answer.InsufficientFunds?
    ensures Executable(start, w, w.log[j].call) ==> w.log[j].answer.Created?
  {
    var Call(key, body, _) := w.log[j].call;
    AskedIsEnough(start.db, w, Into(body.destination), key, j);
    AskedIsEnough(start.db, w, OutOf(body.source), key, j);
    FirstUse(start.db, w.log, j);
  }

  lemma FirstOpening(start: Db, log: seq<Decision>, j: nat)
    requires Serial(start, log) && j < |log| && log[j].call.body.Create?
    requires log[j].call.key !in start.keys && KeyUnused(log[..j], log[j].call.key)
    ensures log[j].answer.Created?
  {
    SerialAt(start, log, j);
    if log[j].call.key in State(start, log[..j]).keys {
      var i := KeyHasAnAuthor(start, log[..j], log[j].call.key);
    }
  }

  lemma ExecutableIsNotRefused(start: World, w: World, j: nat)
    requires Inv(start.db, w) && j < |w.log| && w.log[j].call.key !in start.db.keys
    requires Executable(start, w, w.log[j].call)
    ensures w.log[j].answer.Created? || w.log[j].answer.Replayed? || w.log[j].answer.KeyConflict?
  {
    if KeyUnused(w.log[..j], w.log[j].call.key) {
      if w.log[j].call.body.Create? {
        FirstOpening(start.db, w.log, j);
      } else {
        FirstUseWithRoom(start, w, j);
      }
    } else {
      var i :| 0 <= i < j && w.log[i].call.key == w.log[j].call.key && w.log[i].answer.Created?;
      AfterSuccess(start.db, w.log, i, j);
    }
  }

  /** Requests that nothing can refuse, each under a key of its own, all succeed, whichever way they
      go: opposing transfers, a ring of them, accounts being opened. */
  lemma ExecutableRequestsSucceed(w0: World, acts: seq<Action>, w: World, r: Rid)
    requires Initial(w0) && Leads(w0, acts, w)
    requires Settled(w, r) && Executable(w0, w, w.procs[r].call) && w.procs[r].call.key !in w0.db.keys
    requires forall s | s in w.procs && s != r :: w.procs[s].call.key != w.procs[r].call.key
    ensures w.procs[r].phase.answer.Created?
  {
    RunInv(w0, acts, w);
    var j := PlaceInLog(w, r, w.procs[r].phase.answer);
    ExecutableIsNotRefused(w0, w, j);
    if !w.log[j].answer.Created? {
      var i := AuthorOf(w0.db, w.log, j);
      LogHasCalls(w0.db, w, i);
    }
  }

  // ---------- One key, many bodies: the counts ----------

  ghost function Under(w: World, key: string): set<Rid> {
    set r | r in w.procs && w.procs[r].call.key == key
  }

  /** Those told 201, 200 and 409. */
  ghost function Told201(w: World, key: string): set<Rid> {
    set r | r in Under(w, key) && w.procs[r].phase.Finished? && w.procs[r].phase.answer.Created?
  }

  ghost function Told200(w: World, key: string): set<Rid> {
    set r | r in Under(w, key) && w.procs[r].phase.Finished? && w.procs[r].phase.answer.Replayed?
  }

  ghost function Told409(w: World, key: string): set<Rid> {
    set r | r in Under(w, key) && w.procs[r].phase.Finished? && w.procs[r].phase.answer.KeyConflict?
  }

  predicate SameRequest(a: Call, b: Call) {
    (a.body.Transfer? <==> b.body.Transfer?) && a.hash == b.hash
  }

  /** The requests under r's key that ask for what r asks for, r included. */
  ghost function Twins(w: World, r: Rid): set<Rid>
    requires r in w.procs
  {
    set s | s in Under(w, w.procs[r].call.key) && SameRequest(w.procs[s].call, w.procs[r].call)
  }

  /** One 201; a 200 with the winner's response for each of its twins; a 409 for everybody else. */
  ghost predicate ExactlyOneWins(w: World, key: string, winner: Rid) {
    && winner in Under(w, key) && w.procs[winner].phase.Finished? && w.procs[winner].phase.answer.Created?
    && Told201(w, key) == {winner}
    && Told200(w, key) == Twins(w, winner) - {winner}
    && Told409(w, key) == Under(w, key) - Twins(w, winner)
    && |Told201(w, key)| == 1
    && |Told200(w, key)| == |Twins(w, winner)| - 1
    && |Told409(w, key)| == |Under(w, key)| - |Twins(w, winner)|
    && forall r | r in Told200(w, key) ::
         w.procs[r].phase.answer == Replayed(Some(w.procs[winner].phase.answer.response))
  }

  ghost predicate ToldByWinner(w: World, key: string, winner: Rid) {
    && winner in Under(w, key) && Settled(w, winner) && w.procs[winner].phase.answer.Created?
    && forall r | r in Under(w, key) && r != winner ::
         && Settled(w, r)
         && w.procs[r].phase.answer == if SameRequest(w.procs[r].call, w.procs[winner].call)
                                       then Replayed(Some(w.procs[winner].phase.answer.response))
                                       else KeyConflict(OperationOf(w.procs[winner].call.body))
  }

  lemma WhoWasTold(w: World, key: string, winner: Rid)
    requires ToldByWinner(w, key, winner)
    ensures Told201(w, key) == {winner}
    ensures Told200(w, key) == Twins(w, winner) - {winner}
    ensures Told409(w, key) == Under(w, key) - Twins(w, winner)
  {
    forall r | r in Under(w, key) && r != winner
      ensures r !in Told201(w, key)
      ensures r in Told200(w, key) <==> r in Twins(w, winner)
      ensures r in Told409(w, key) <==> r !in Twins(w, winner)
    {
      assert Settled(w, r);
    }
    assert winner in Twins(w, winner) && winner in Told201(w, key);
  }

  lemma CountsFollow(w: World, key: string, winner: Rid)
    requires ToldByWinner(w, key, winner)
    ensures ExactlyOneWins(w, key, winner)
  {
    WhoWasTold(w, key, winner);
    Remainders(Under(w, key), Twins(w, winner), winner);
  }

  lemma Remainders(all: set<Rid>, some: set<Rid>, one: Rid)
    requires one in some && some <= all
    ensures |some - {one}| == |some| - 1 && |all - some| == |all| - |some|
  {
    assert all == some + (all - some);
  }

  /** If all requests under one key are answered and none is refused on its own merits, exactly one is
      carried out, its twins are replayed, and all others get a 409. */
  lemma OneKeyExactCounts(w0: World, acts: seq<Action>, w: World, key: string) returns (winner: Rid)
    requires Initial(w0) && Leads(w0, acts, w) && key !in w0.db.keys && Under(w, key) != {}
    requires forall r | r in Under(w, key) :: Settled(w, r) && !Refusal(w.procs[r].phase.answer)
    ensures ExactlyOneWins(w, key, winner)
  {
    OneKeyOneWinner(w0, acts, w, key);
    var r :| r in Under(w, key);
    winner :| winner in w.procs && w.procs[winner].call.key == key
              && Settled(w, winner) && w.procs[winner].phase.answer.Created?
              && forall r | r in w.procs && w.procs[r].call.key == key && r != winner ::
                   Settled(w, r)
                   && (|| Refusal(w.procs[r].phase.answer)
                       || w.procs[r].phase.answer == Shared(w.procs[winner], w.procs[r].call));
    hide Initial, Leads;
    CountsFollow(w, key, winner);
  }

  /** Many requests with different bodies race under one key. If nothing can refuse any of them and
      all are answered, there is one 201, a 200 for each twin of the winner, and a 409 for each other
      request, in every schedule. */
  lemma OneKeyManyBodies(w0: World, acts: seq<Action>, w: World, key: string) returns (winner: Rid)
    requires Initial(w0) && Leads(w0, acts, w) && key !in w0.db.keys && Under(w, key) != {}
    requires forall r | r in Under(w, key) :: Settled(w, r) && Executable(w0, w, w.procs[r].call)
    ensures ExactlyOneWins(w, key, winner)
  {
    RunInv(w0, acts, w);
    forall r | r in Under(w, key) ensures Settled(w, r) && !Refusal(w.procs[r].phase.answer) {
      assert Settled(w, r);
      var j := PlaceInLog(w, r, w.procs[r].phase.answer);
      ExecutableIsNotRefused(w0, w, j);
    }
    winner := OneKeyExactCounts(w0, acts, w, key);
  }

  /** N copies of one request: one 201 and N - 1 times 200, all with one response. */
  lemma CopiesActOnce(w0: World, acts: seq<Action>, w: World, key: string, call: Call) returns (winner: Rid)
    requires Initial(w0) && Leads(w0, acts, w) && key !in w0.db.keys && Under(w, key) != {}
    requires Executable(w0, w, call)
    requires forall r | r in Under(w, key) :: Settled(w, r) && w.procs[r].call == call
    ensures ExactlyOneWins(w, key, winner)
    ensures |Told201(w, key)| == 1 && |Told200(w, key)| == |Under(w, key)| - 1
  {
    winner := OneKeyManyBodies(w0, acts, w, key);
    assert Twins(w, winner) == Under(w, key);
  }

  // ---------- Withdrawals ----------

  /** The requests counted by a tally. */
  function Rids(log: seq<Decision>, t: Tally): set<Rid> {
    if log == [] then {}
    else Rids(log[..|log| - 1], t) + if Matches(t, log[|log| - 1]) then {log[|log| - 1].rid} else {}
  }

  lemma {:induction false} RidsMembers(log: seq<Decision>, t: Tally, r: Rid)
    ensures r in Rids(log, t) <==> exists i | 0 <= i < |log| :: log[i].rid == r && Matches(t, log[i])
  {
    if log != [] {
      RidsMembers(log[..|log| - 1], t, r);
    }
  }

  lemma {:induction false} RidsCount(log: seq<Decision>, t: Tally)
    requires forall i, j | 0 <= i < j < |log| :: log[i].rid != log[j].rid
    ensures |Rids(log, t)| == Count(log, t)
  {
    if log != [] {
      RidsCount(log[..|log| - 1], t);
      RidsMembers(log[..|log| - 1], t, log[|log| - 1].rid);
    }
  }

  ghost function Withdrawals(w: World, account: Uuid, amount: int): set<Rid> {
    set r | r in w.procs && IsWithdrawal(w.procs[r].call, account, amount)
  }

  ghost function Successes(w: World, account: Uuid, amount: int): set<Rid> {
    set r | r in Withdrawals(w, account, amount) && w.procs[r].phase.Finished? && w.procs[r].phase.answer.Created?
  }

  /** The withdrawals that took effect, whether or not anybody was told. */
  ghost function CarriedOut(w: World, account: Uuid, amount: int): set<Rid> {
    Rids(w.log, Withdrawn(account, amount))
  }

  /** Nobody credits the account, and every debit is of one size. Any other traffic is allowed. */
  ghost predicate OnlyDebitsArrive(w: World, account: Uuid, amount: int) {
    forall r | r in w.procs ::
      Elsewhere(w.procs[r].call, account) || IsWithdrawal(w.procs[r].call, account, amount)
  }

  lemma LogHasOnlyDebits(start: Db, w: World, account: Uuid, amount: int)
    requires Inv(start, w) && OnlyDebitsArrive(w, account, amount)
    ensures OnlyDebits(w.log, account, amount)
  {
    forall i | 0 <= i < |w.log|
      ensures Elsewhere(w.log[i].call, account) || IsWithdrawal(w.log[i].call, account, amount)
    {
      LogHasCalls(start, w, i);
    }
  }

  lemma SuccessesAreLogged(w: World, account: Uuid, amount: int)
    requires ProcsOk(w)
    ensures Successes(w, account, amount) <= CarriedOut(w, account, amount)
  {
    forall r | r in Successes(w, account, amount) ensures r in CarriedOut(w, account, amount) {
      var i := PlaceInLog(w, r, w.procs[r].phase.answer);
      RidsMembers(w.log, Withdrawn(account, amount), r);
    }
  }

  lemma SettledAreLogged(w: World, account: Uuid, amount: int)
    requires ProcsOk(w)
    requires forall i | 0 <= i < |w.log| :: w.log[i].rid in w.procs && w.procs[w.log[i].rid].decided == Some(i)
    requires forall r | r in Withdrawals(w, account, amount) :: Settled(w, r)
    ensures Withdrawals(w, account, amount) == Rids(w.log, Attempts(account, amount))
    ensures Successes(w, account, amount) == CarriedOut(w, account, amount)
  {
    forall r ensures r in Withdrawals(w, account, amount) <==> r in Rids(w.log, Attempts(account, amount)) {
      RidsMembers(w.log, Attempts(account, amount), r);
      if r in Withdrawals(w, account, amount) {
        var i := PlaceInLog(w, r, w.procs[r].phase.answer);
      }
      if i :| 0 <= i < |w.log| && w.log[i].rid == r && Matches(Attempts(account, amount), w.log[i]) {
        WinnerWasTold(w, i);
      }
    }
    forall r | r in CarriedOut(w, account, amount) ensures r in Successes(w, account, amount) {
      RidsMembers(w.log, Withdrawn(account, amount), r);
      var i :| 0 <= i < |w.log| && w.log[i].rid == r && Matches(Withdrawn(account, amount), w.log[i]);
      WinnerWasTold(w, i);
      assert r in Withdrawals(w, account, amount);
    }
    SuccessesAreLogged(w, account, amount);
  }

  /** An account that is only debited, by one amount, is never overdrawn, whatever the keys, the
      destinations, the rest of the ledger and the schedule: what was carried out is exactly what its
      balance went down by, and no more than it covers. */
  lemma ConcurrentWithdrawalsNeverOverdraw(w0: World, acts: seq<Action>, w: World, account: Uuid, amount: int)
    requires Initial(w0) && Leads(w0, acts, w) && account in w0.db.accounts && amount > 0
    requires OnlyDebitsArrive(w, account, amount)
    ensures account in w.db.accounts
    ensures w.db.accounts[account].balance
         == w0.db.accounts[account].balance - |CarriedOut(w, account, amount)| * amount
    ensures |Successes(w, account, amount)| <= |CarriedOut(w, account, amount)|
                                            <= w0.db.accounts[account].balance / amount
  {
    RunInv(w0, acts, w);
    LogHasOnlyDebits(w0.db, w, account, amount);
    WithdrawalsNeverOverdraw(w0.db, w.log, account, amount);
    RidsCount(w.log, Withdrawn(account, amount));
    SuccessesAreLogged(w, account, amount);
    SubsetIsSmaller(Successes(w, account, amount), CarriedOut(w, account, amount));
  }

  /** If each of them was told 201 or that funds are lacking, their number is exactly the smaller of
      the attempts and what the balance covers. */
  lemma WithdrawalsPayOut(w0: World, acts: seq<Action>, w: World, account: Uuid, amount: int)
    requires Initial(w0) && Leads(w0, acts, w) && account in w0.db.accounts && amount > 0
    requires OnlyDebitsArrive(w, account, amount)
    requires forall r | r in Withdrawals(w, account, amount) ::
               Settled(w, r) && (w.procs[r].phase.answer.Created? || w.procs[r].phase.answer.InsufficientFunds?)
    ensures var tried, covered := |Withdrawals(w, account, amount)|, w0.db.accounts[account].balance / amount;
            |Successes(w, account, amount)| == if tried < covered then tried else covered
  {
    RunInv(w0, acts, w);
    LogHasOnlyDebits(w0.db, w, account, amount);
    forall i | 0 <= i < |w.log| && IsWithdrawal(w.log[i].call, account, amount)
      ensures w.log[i].answer.Created? || w.log[i].answer.InsufficientFunds?
    {
      LogHasCalls(w0.db, w, i);
      assert w.log[i].rid in Withdrawals(w, account, amount);
      WinnerWasTold(w, i);
    }
    WithdrawalsPayOutExactly(w0.db, w.log, account, amount);
    RidsCount(w.log, Attempts(account, amount));
    RidsCount(w.log, Withdrawn(account, amount));
    SettledAreLogged(w, account, amount);
  }

  /** Each withdrawal goes to another account that stays in range, under a key of its own. */
  ghost predicate OwnKeyAndRoom(w0: World, w: World, r: Rid)
    requires r in w.procs
  {
    && HasRoom(w0, w, w.procs[r].call) && w.procs[r].call.key !in w0.db.keys
    && forall s | s in w.procs && s != r :: w.procs[s].call.key != w.procs[r].call.key
  }

  lemma OnlyFundsAreLacking(w0: World, w: World, r: Rid)
    requires Inv(w0.db, w) && r in w.procs && Settled(w, r) && OwnKeyAndRoom(w0, w, r)
    ensures w.procs[r].phase.answer.Created? || w.procs[r].phase.answer.InsufficientFunds?
  {
    var j := PlaceInLog(w, r, w.procs[r].phase.answer);
    forall i | 0 <= i < j ensures w.log[i].call.key != w.log[j].call.key {
      LogHasCalls(w0.db, w, i);
    }
    FirstUseWithRoom(w0, w, j);
  }

  /** So for withdrawals under keys of their own to accounts with room for them, the number of
      successes does not depend on the schedule: once all are settled, it is the smaller of their
      number and what the opening balance covers. */
  lemma WithdrawalsAreScheduleIndependent(w0: World, acts: seq<Action>, w: World, account: Uuid, amount: int)
    requires Initial(w0) && Leads(w0, acts, w) && account in w0.db.accounts && amount > 0
    requires OnlyDebitsArrive(w, account, amount)
    requires forall r | r in Withdrawals(w, account, amount) :: Settled(w, r) && OwnKeyAndRoom(w0, w, r)
    ensures var tried, covered := |Withdrawals(w, account, amount)|, w0.db.accounts[account].balance / amount;
            |Successes(w, account, amount)| == if tried < covered then tried else covered
  {
    RunInv(w0, acts, w);
    forall r | r in Withdrawals(w, account, amount)
      ensures Settled(w, r) && (w.procs[r].phase.answer.Created? || w.procs[r].phase.answer.InsufficientFunds?)
    {
      assert Settled(w, r);
      OnlyFundsAreLacking(w0, w, r);
    }
    WithdrawalsPayOut(w0, acts, w, account, amount);
  }

  // ---------- Where the money ends up ----------

  /** Two runs from one start that carried out the same things, in whatever order and under whatever
      ids for the accounts they opened, leave the same balance in every account. */
  lemma OrderDoesNotMatter(
    w0: World, acts1: seq<Action>, w1: World, acts2: seq<Action>, w2: World, rename: Uuid -> Uuid, a: Uuid)
    requires Initial(w0) && Leads(w0, acts1, w1) && Leads(w0, acts2, w2)
    requires Injective(rename) && forall id | id in w0.db.accounts :: rename(id) == id
    requires multiset(Renamed(Deeds(w1.log), rename)) == multiset(Deeds(w2.log))
    ensures a in w1.db.accounts ==>
              rename(a) in w2.db.accounts && w2.db.accounts[rename(a)].balance == w1.db.accounts[a].balance
  {
    RunInv(w0, acts1, w1);
    RunInv(w0, acts2, w2);
    hide Initial, Leads, Injective, Renamed, Deeds;
    SameDeedsSameBalances(w0.db, w1.log, w2.log, rename, a);
  }
}
