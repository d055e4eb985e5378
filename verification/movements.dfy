/** What a history moves in and out of accounts: bounds on balances, how many withdrawals an account
    pays, and why the order of transfers does not matter to where the money ends up. */
module Movements {
  import opened Models
  import opened Requests
  import opened Ledger
  import opened History

  // ---------- How far a balance can move ----------

  datatype Flow = Into(account: Uuid) | OutOf(account: Uuid)

  /** What a request would move in that direction. */
  function Carries(flow: Flow, body: Body): int {
    if body.Create? then 0
    else if (match flow case Into(a) => body.destination == a case OutOf(a) => body.source == a) then body.amount
    else 0
  }

  /** ... if it is not one of those under the key. */
  function Share(flow: Flow, call: Call, key: string): int {
    if call.key == key then 0 else Carries(flow, call.body)
  }

  /** All that requests under other keys asked to move, carried out or not. */
  function Attempted(log: seq<Decision>, flow: Flow, key: string): int {
    if log == [] then 0
    else Attempted(log[..|log| - 1], flow, key) + Share(flow, log[|log| - 1].call, key)
  }

  predicate KeyUnused(log: seq<Decision>, key: string) {
    forall i | 0 <= i < |log| && log[i].call.key == key :: !log[i].answer.Created?
  }

  lemma OneMovement(db: Db, d: Decision, a: Uuid, key: string)
    requires a in db.accounts && ValidBody(d.call.body) && d.answer == Apply(db, d.call, d.drawn).answer
    requires d.answer.Created? ==> FreshFor(db, d.drawn)
    requires d.call.key == key ==> !d.answer.Created?
    ensures var now := Apply(db, d.call, d.drawn).db;
            && a in now.accounts
            && db.accounts[a].balance - Share(OutOf(a), d.call, key) <= now.accounts[a].balance
                                   <= db.accounts[a].balance + Share(Into(a), d.call, key)
  {
  }

  /** While a key is unused, a balance has moved at most by what requests under other keys asked for. */
  lemma {:induction false} BalanceWithin(start: Db, log: seq<Decision>, a: Uuid, key: string)
    requires Serial(start, log) && a in start.accounts && KeyUnused(log, key)
    ensures var now := State(start, log);
            && a in now.accounts
            && start.accounts[a].balance - Attempted(log, OutOf(a), key) <= now.accounts[a].balance
                                      <= start.accounts[a].balance + Attempted(log, Into(a), key)
  {
    if log != [] {
      var prefix, last := log[..|log| - 1], log[|log| - 1];
      assert KeyUnused(prefix, key) by {
        assert forall i | 0 <= i < |prefix| :: prefix[i] == log[i];
      }
      BalanceWithin(start, prefix, a, key);
      OneMovement(State(start, prefix), last, a, key);
    }
  }

  /** The first use of a key for a transfer between two existing accounts, the destination having
      room for it whatever comes first: funds are the only thing it can lack, and it does not lack
      them if the source covers it whatever goes first. */
  lemma FirstUse(start: Db, log: seq<Decision>, j: nat)
    requires Serial(start, log) && j < |log|
    requires log[j].call.key !in start.keys && KeyUnused(log[..j], log[j].call.key)
    requires var Call(key, body, _) := log[j].call;
             && body.Transfer? && body.source != body.destination
             && body.source in start.accounts && body.destination in start.accounts
             && start.accounts[body.destination].balance + Attempted(log[..j], Into(body.destination), key)
                + body.amount <= MAX_MONEY
    ensures log[j].answer.Created? || log[j].answer.InsufficientFunds?
    ensures var Call(key, body, _) := log[j].call;
            start.accounts[body.source].balance - Attempted(log[..j], OutOf(body.source), key) >= body.amount
            ==> log[j].answer.Created?
  {
    var Call(key, body, _) := log[j].call;
    SerialAt(start, log, j);
    BalanceWithin(start, log[..j], body.source, key);
    BalanceWithin(start, log[..j], body.destination, key);
    if key in State(start, log[..j]).keys {
      var i := KeyHasAnAuthor(start, log[..j], key);
    }
  }

  /** What distinct requests of a table asked to move is at most what all of them ask to move. */
  lemma {:induction false} AttemptedWithin(log: seq<Decision>, flow: Flow, key: string, shares: map<nat, int>)
    requires forall i | 0 <= i < |log| ::
               log[i].rid in shares && shares[log[i].rid] == Share(flow, log[i].call, key)
    requires forall i, j | 0 <= i < j < |log| :: log[i].rid != log[j].rid
    requires forall r | r in shares :: shares[r] >= 0
    ensures Attempted(log, flow, key) <= Total(shares)
  {
    if log == [] {
      TotalNonNegative(shares);
    } else {
      var prefix, last := log[..|log| - 1], log[|log| - 1];
      TotalWithout(shares, last.rid);
      assert forall i | 0 <= i < |prefix| :: prefix[i] == log[i];
      AttemptedWithin(prefix, flow, key, shares - {last.rid});
    }
  }

  // ---------- Counting answers ----------

  datatype Tally = Attempts(account: Uuid, amount: int) | Withdrawn(account: Uuid, amount: int)

  predicate IsWithdrawal(call: Call, account: Uuid, amount: int) {
    call.body.Transfer? && call.body.source == account && call.body.amount == amount
  }

  predicate Matches(t: Tally, d: Decision) {
    IsWithdrawal(d.call, t.account, t.amount) && (t.Withdrawn? ==> d.answer.Created?)
  }

  function Count(log: seq<Decision>, t: Tally): nat {
    if log == [] then 0
    else Count(log[..|log| - 1], t) + if Matches(t, log[|log| - 1]) then 1 else 0
  }

  // ---------- Withdrawals ----------

  /** Requests that leave an account's balance alone. */
  predicate Elsewhere(call: Call, account: Uuid) {
    call.body.Create? || (call.body.source != account && call.body.destination != account)
  }

  /** Nobody credits the account, and every debit is of one size. */
  predicate OnlyDebits(log: seq<Decision>, account: Uuid, amount: int) {
    forall i | 0 <= i < |log| :: Elsewhere(log[i].call, account) || IsWithdrawal(log[i].call, account, amount)
  }

  /** Each withdrawal succeeds or lacks funds. */
  predicate OnlyFundsDecide(log: seq<Decision>, account: Uuid, amount: int) {
    forall i | 0 <= i < |log| && IsWithdrawal(log[i].call, account, amount) ::
      log[i].answer.Created? || log[i].answer.InsufficientFunds?
  }

  lemma WithdrawalStep(db: Db, d: Decision, account: Uuid, amount: int)
    requires account in db.accounts && d.answer == Apply(db, d.call, d.drawn).answer
    requires d.answer.Created? ==> FreshFor(db, d.drawn)
    requires Elsewhere(d.call, account) || IsWithdrawal(d.call, account, amount)
    ensures var now := Apply(db, d.call, d.drawn).db;
            && account in now.accounts
            && now.accounts[account].balance
               == db.accounts[account].balance - if Matches(Withdrawn(account, amount), d) then amount else 0
    ensures IsWithdrawal(d.call, account, amount) && d.answer.InsufficientFunds? ==>
              db.accounts[account].balance < amount
  {
  }

  /** Each carried-out withdrawal takes its amount, and nothing else moves the balance. */
  lemma {:induction false} BalanceAfterWithdrawals(start: Db, log: seq<Decision>, account: Uuid, amount: int)
    requires Serial(start, log) && account in start.accounts && OnlyDebits(log, account, amount)
    ensures account in State(start, log).accounts
    ensures State(start, log).accounts[account].balance
         == start.accounts[account].balance - Count(log, Withdrawn(account, amount)) * amount
  {
    hide Apply, FreshFor;
    if log != [] {
      var prefix, last := log[..|log| - 1], log[|log| - 1];
      assert forall i | 0 <= i < |prefix| :: prefix[i] == log[i];
      BalanceAfterWithdrawals(start, prefix, account, amount);
      WithdrawalStep(State(start, prefix), last, account, amount);
      OneTimeMore(Count(prefix, Withdrawn(account, amount)), amount);
    }
  }

  lemma OneTimeMore(times: nat, amount: int)
    ensures (times + 1) * amount == times * amount + amount
  {
  }

  /** Whatever the keys, the destinations and the rest of the ledger: an account that is only debited
      pays out what its balance covers and no more. */
  lemma WithdrawalsNeverOverdraw(start: Db, log: seq<Decision>, account: Uuid, amount: int)
    requires LedgerOk(start) && Serial(start, log) && account in start.accounts && amount > 0
    requires OnlyDebits(log, account, amount)
    ensures var opening, now := start.accounts[account].balance, State(start, log);
            var paid := Count(log, Withdrawn(account, amount));
            && account in now.accounts
            && now.accounts[account].balance == opening - paid * amount
            && paid <= opening / amount
  {
    BalanceAfterWithdrawals(start, log, account, amount);
    SerialKeepsLedgerOk(start, log);
    CoveredTimes(start.accounts[account].balance, amount, Count(log, Withdrawn(account, amount)));
  }

  /** If funds are all that decides, it pays out until it cannot: the successes are the smaller of
      the attempts and the number of withdrawals its balance covers, in any order. */
  lemma {:induction false} WithdrawalsPayOutExactly(start: Db, log: seq<Decision>, account: Uuid, amount: int)
    requires LedgerOk(start) && Serial(start, log) && account in start.accounts && amount > 0
    requires OnlyDebits(log, account, amount) && OnlyFundsDecide(log, account, amount)
    ensures var covered := start.accounts[account].balance / amount;
            var paid, tried := Count(log, Withdrawn(account, amount)), Count(log, Attempts(account, amount));
            paid == if tried < covered then tried else covered
  {
    hide Apply, FreshFor, LedgerOk;
    WithdrawalsNeverOverdraw(start, log, account, amount);
    if log != [] {
      var prefix, last := log[..|log| - 1], log[|log| - 1];
      assert forall i | 0 <= i < |prefix| :: prefix[i] == log[i];
      WithdrawalsPayOutExactly(start, prefix, account, amount);
      WithdrawalsNeverOverdraw(start, prefix, account, amount);
      WithdrawalStep(State(start, prefix), last, account, amount);
      CoveredTimes(start.accounts[account].balance, amount, Count(prefix, Withdrawn(account, amount)));
    }
  }

  /** How often an amount fits into a balance. */
  lemma CoveredTimes(balance: int, amount: int, times: nat)
    requires amount > 0
    ensures balance - times * amount >= 0 ==> times <= balance / amount
    ensures balance - times * amount < amount ==> balance / amount <= times
  {
    var q, r := balance / amount, balance % amount;
    assert balance == q * amount + r && 0 <= r < amount;
    if times < q {
      MulMonotone(times + 1, q, amount);
    } else if q < times {
      MulMonotone(q + 1, times, amount);
    }
  }

  lemma MulMonotone(x: int, y: int, m: int)
    requires x <= y && m > 0
    ensures x * m <= y * m
  {
  }

  // ---------- The order of transfers does not matter ----------

  /** What a carried-out request did, apart from the names and times of its rows. */
  datatype Deed = Paid(source: Uuid, destination: Uuid, amount: int) | Endowed(account: Uuid, balance: int)

  function DeedOf(d: Decision): Deed {
    match d.call.body
    case Transfer(s, t, amount) => Paid(s, t, amount)
    case Create(balance) => Endowed(d.drawn.resource, balance)
  }

  function Deeds(log: seq<Decision>): seq<Deed> {
    if log == [] then []
    else Deeds(log[..|log| - 1]) + if log[|log| - 1].answer.Created? then [DeedOf(log[|log| - 1])] else []
  }

  function Gain(deed: Deed, a: Uuid): int {
    match deed
    case Paid(s, t, amount) => (if t == a then amount else 0) - if s == a then amount else 0
    case Endowed(id, balance) => if id == a then balance else 0
  }

  function Net(deeds: seq<Deed>, a: Uuid): int {
    if deeds == [] then 0 else Net(deeds[..|deeds| - 1], a) + Gain(deeds[|deeds| - 1], a)
  }

  function BalanceOf(db: Db, a: Uuid): int {
    if a in db.accounts then db.accounts[a].balance else 0
  }

  predicate Endows(deeds: seq<Deed>, a: Uuid) {
    exists deed :: deed in deeds && deed.Endowed? && deed.account == a
  }

  lemma NetSnoc(deeds: seq<Deed>, deed: Deed, a: Uuid)
    ensures Net(deeds + [deed], a) == Net(deeds, a) + Gain(deed, a)
  {
    assert (deeds + [deed])[..|deeds|] == deeds;
  }

  lemma OneDeed(db: Db, d: Decision, a: Uuid)
    requires d.answer == Apply(db, d.call, d.drawn).answer
    requires d.answer.Created? ==> FreshFor(db, d.drawn)
    ensures var now := Apply(db, d.call, d.drawn).db;
            && BalanceOf(now, a) == BalanceOf(db, a) + (if d.answer.Created? then Gain(DeedOf(d), a) else 0)
            && (a in now.accounts <==>
                  a in db.accounts || (d.answer.Created? && DeedOf(d).Endowed? && DeedOf(d).account == a))
  {
  }

  /** A balance is what the account started with and what was done to it since. */
  lemma {:induction false} BalancesAreDeeds(start: Db, log: seq<Decision>, a: Uuid)
    requires Serial(start, log)
    ensures BalanceOf(State(start, log), a) == BalanceOf(start, a) + Net(Deeds(log), a)
    ensures a in State(start, log).accounts <==> a in start.accounts || Endows(Deeds(log), a)
  {
    hide Apply, FreshFor;
    if log != [] {
      var prefix, last := log[..|log| - 1], log[|log| - 1];
      BalancesAreDeeds(start, prefix, a);
      OneDeed(State(start, prefix), last, a);
      NetSnoc(Deeds(prefix), DeedOf(last), a);
      if !last.answer.Created? {
        assert Deeds(log) == Deeds(prefix);
      }
    }
  }

  function RenamedDeed(deed: Deed, rename: Uuid -> Uuid): Deed {
    match deed
    case Paid(s, t, amount) => Paid(rename(s), rename(t), amount)
    case Endowed(id, balance) => Endowed(rename(id), balance)
  }

  function Renamed(deeds: seq<Deed>, rename: Uuid -> Uuid): seq<Deed> {
    if deeds == [] then []
    else Renamed(deeds[..|deeds| - 1], rename) + [RenamedDeed(deeds[|deeds| - 1], rename)]
  }

  ghost predicate Injective(rename: Uuid -> Uuid) {
    forall x, y :: rename(x) == rename(y) ==> x == y
  }

  lemma {:induction false} NetRenamed(deeds: seq<Deed>, rename: Uuid -> Uuid, a: Uuid)
    requires Injective(rename)
    ensures Net(Renamed(deeds, rename), rename(a)) == Net(deeds, a)
    ensures Endows(deeds, a) ==> Endows(Renamed(deeds, rename), rename(a))
  {
    if deeds != [] {
      var prefix, last := deeds[..|deeds| - 1], deeds[|deeds| - 1];
      NetRenamed(prefix, rename, a);
      NetSnoc(Renamed(prefix, rename), RenamedDeed(last, rename), rename(a));
      if Endows(deeds, a) {
        var deed :| deed in deeds && deed.Endowed? && deed.account == a;
        assert deeds == prefix + [last];
        assert deed == last ==> RenamedDeed(last, rename) in Renamed(deeds, rename);
        assert deed in prefix ==> Endows(prefix, a);
      }
    }
  }

  lemma {:induction false} NetWithout(deeds: seq<Deed>, i: nat, a: Uuid)
    requires i < |deeds|
    ensures Net(deeds, a) == Net(deeds[..i] + deeds[i + 1..], a) + Gain(deeds[i], a)
  {
    var n := |deeds| - 1;
    if i == n {
      assert deeds[..i] + deeds[i + 1..] == deeds[..n];
    } else {
      var prefix := deeds[..n];
      NetWithout(prefix, i, a);
      assert deeds[..i] + deeds[i + 1..] == prefix[..i] + prefix[i + 1..] + [deeds[n]];
      NetSnoc(prefix[..i] + prefix[i + 1..], deeds[n], a);
    }
  }

  lemma PlaceOf(deeds: seq<Deed>, deed: Deed) returns (i: nat)
    requires deed in multiset(deeds)
    ensures i < |deeds| && deeds[i] == deed
    ensures multiset(deeds[..i] + deeds[i + 1..]) == multiset(deeds) - multiset{deed}
  {
    i :| 0 <= i < |deeds| && deeds[i] == deed;
    assert deeds == deeds[..i] + [deed] + deeds[i + 1..];
  }

  lemma {:induction false} NetPermuted(x: seq<Deed>, y: seq<Deed>, a: Uuid)
    requires multiset(x) == multiset(y)
    ensures Net(x, a) == Net(y, a)
  {
    hide Gain;
    if x == [] {
      assert |multiset(y)| == |multiset(x)| == 0;
    } else {
      var prefix, last := x[..|x| - 1], x[|x| - 1];
      assert x == prefix + [last];
      var i := PlaceOf(y, last);
      NetPermuted(prefix, y[..i] + y[i + 1..], a);
      NetWithout(y, i, a);
    }
  }

  /** Two histories that did the same things, in whatever order and under whatever ids for the
      accounts they opened, leave the same balance in every account. */
  lemma SameDeedsSameBalances(start: Db, log1: seq<Decision>, log2: seq<Decision>, rename: Uuid -> Uuid, a: Uuid)
    requires Serial(start, log1) && Serial(start, log2)
    requires Injective(rename) && forall id | id in start.accounts :: rename(id) == id
    requires multiset(Renamed(Deeds(log1), rename)) == multiset(Deeds(log2))
    ensures a in State(start, log1).accounts ==> rename(a) in State(start, log2).accounts
    ensures BalanceOf(State(start, log1), a) == BalanceOf(State(start, log2), rename(a))
  {
    hide Serial, State;
    var renamed := Renamed(Deeds(log1), rename);
    BalancesAreDeeds(start, log1, a);
    BalancesAreDeeds(start, log2, rename(a));
    NetRenamed(Deeds(log1), rename, a);
    NetPermuted(renamed, Deeds(log2), rename(a));
    assert rename(a) in start.accounts ==> rename(rename(a)) == rename(a);
    if Endows(renamed, rename(a)) {
      var deed :| deed in renamed && deed.Endowed? && deed.account == rename(a);
      assert deed in multiset(Deeds(log2));
    }
  }
}
