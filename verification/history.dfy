/** Serial histories: sequences of requests, each answered by the sequential ledger in turn, and
    what they guarantee to clients. */
module History {
  import opened Models
  import opened Requests
  import opened Ledger

  /** One answered request, with the uuids and timestamp it used. */
  datatype Decision = Decision(rid: nat, call: Call, drawn: Fresh, answer: Answer)

  /** The database after serving a sequence of requests one at a time. */
  function State(start: Db, log: seq<Decision>): Db {
    if log == [] then start
    else Apply(State(start, log[..|log| - 1]), log[|log| - 1].call, log[|log| - 1].drawn).db
  }

  /** Each recorded answer is the one the sequential ledger gives. */
  ghost predicate Serial(start: Db, log: seq<Decision>) {
    log == [] ||
    (var prefix, last := log[..|log| - 1], log[|log| - 1];
     var db := State(start, prefix);
     && Serial(start, prefix)
     && ValidBody(last.call.body)
     && last.answer == Apply(db, last.call, last.drawn).answer
     && (last.answer.Created? ==> FreshFor(db, last.drawn)))
  }

  lemma SerialAppend(start: Db, log: seq<Decision>, d: Decision)
    requires Serial(start, log) && ValidBody(d.call.body)
    requires d.answer == Apply(State(start, log), d.call, d.drawn).answer
    requires d.answer.Created? ==> FreshFor(State(start, log), d.drawn)
    ensures Serial(start, log + [d])
    ensures State(start, log + [d]) == Apply(State(start, log), d.call, d.drawn).db
  {
    assert (log + [d])[..|log|] == log;
  }

  lemma {:induction false} SerialAt(start: Db, log: seq<Decision>, i: nat)
    requires Serial(start, log) && i < |log|
    ensures Serial(start, log[..i]) && ValidBody(log[i].call.body)
    ensures log[i].answer == Apply(State(start, log[..i]), log[i].call, log[i].drawn).answer
    ensures log[i].answer.Created? ==> FreshFor(State(start, log[..i]), log[i].drawn)
    ensures State(start, log[..i + 1]) == Apply(State(start, log[..i]), log[i].call, log[i].drawn).db
  {
    if i < |log| - 1 {
      var prefix := log[..|log| - 1];
      SerialAt(start, prefix, i);
      assert prefix[..i] == log[..i] && prefix[..i + 1] == log[..i + 1];
    } else {
      assert log[..i + 1] == log;
      assert log[..i + 1][..i] == log[..i];
    }
  }

  lemma {:induction false} SerialKeepsLedgerOk(start: Db, log: seq<Decision>)
    requires LedgerOk(start) && Serial(start, log)
    ensures LedgerOk(State(start, log))
  {
    if log != [] {
      var last := log[|log| - 1];
      SerialKeepsLedgerOk(start, log[..|log| - 1]);
      ApplyKeepsLedgerOk(State(start, log[..|log| - 1]), last.call, last.drawn);
    }
  }

  // ---------- Tables only grow ----------

  lemma {:induction false} NothingIsForgotten(start: Db, log: seq<Decision>, i: nat)
    requires i <= |log|
    ensures Extends(State(start, log[..i]), State(start, log))
    decreases |log|
  {
    if i == |log| {
      assert log[..i] == log;
    } else {
      var prefix, last := log[..|log| - 1], log[|log| - 1];
      NothingIsForgotten(start, prefix, i);
      assert prefix[..i] == log[..i];
      ApplyExtends(State(start, prefix), last.call, last.drawn);
      ExtendsTransitive(State(start, log[..i]), State(start, prefix), State(start, log));
    }
  }

  lemma ExtendsTransitive(a: Db, b: Db, c: Db)
    requires Extends(a, b) && Extends(b, c)
    ensures Extends(a, c)
  {
  }

  // ---------- Exactly once ----------

  /** What a key answers once its request has been carried out. */
  function AnswerAfter(first: Decision, later: Call): Answer
    requires first.answer.Created?
  {
    if SameAccount(later.body) then SameAccountTransfer
    else if OperationOf(later.body) == OperationOf(first.call.body) && later.hash == first.call.hash
    then Replayed(Some(first.answer.response))
    else KeyConflict(OperationOf(first.call.body))
  }

  /** Once a key's request has been carried out, every later request with that key is answered
      from the stored response, refused if it is a different request, and changes nothing. */
  lemma AfterSuccess(start: Db, log: seq<Decision>, i: nat, j: nat)
    requires Serial(start, log) && i < j < |log|
    requires log[i].answer.Created? && log[i].call.key == log[j].call.key
    ensures log[j].answer == AnswerAfter(log[i], log[j].call)
    ensures State(start, log[..j + 1]) == State(start, log[..j])
  {
    var db := State(start, log[..j]);
    RecordSurvives(start, log, i, j);
    SerialAt(start, log, j);
    UsedKeyAnswers(db, log[j].call, log[j].drawn, log[i]);
  }

  lemma RecordSurvives(start: Db, log: seq<Decision>, i: nat, j: nat)
    requires Serial(start, log) && i < j <= |log| && log[i].answer.Created?
    ensures log[i].call.key in State(start, log[..j]).keys
    ensures State(start, log[..j]).keys[log[i].call.key] == RecordOf(log[i].call, log[i].drawn)
    ensures log[i].answer == Created(ResponseTo(log[i].call.body, log[i].drawn))
  {
    assert log[i].call.key in State(start, log[..i + 1]).keys
        && State(start, log[..i + 1]).keys[log[i].call.key] == RecordOf(log[i].call, log[i].drawn)
        && log[i].answer == Created(ResponseTo(log[i].call.body, log[i].drawn)) by {
      SerialAt(start, log, i);
      ApplyStoresTheRecord(State(start, log[..i]), log[i].call, log[i].drawn);
    }
    assert log[..j][..i + 1] == log[..i + 1];
    NothingIsForgotten(start, log[..j], i + 1);
  }

  lemma UsedKeyAnswers(db: Db, call: Call, f: Fresh, first: Decision)
    requires call.key in db.keys && db.keys[call.key] == RecordOf(first.call, first.drawn)
    requires first.answer == Created(ResponseTo(first.call.body, first.drawn))
    ensures Apply(db, call, f) == Reply(db, AnswerAfter(first, call))
  {
  }

  /** Where a stored key came from. */
  lemma {:induction false} KeyHasAnAuthor(start: Db, log: seq<Decision>, key: string) returns (i: nat)
    requires Serial(start, log) && key in State(start, log).keys && key !in start.keys
    ensures i < |log| && log[i].answer.Created? && log[i].call.key == key
    ensures State(start, log).keys[key] == RecordOf(log[i].call, log[i].drawn)
    ensures log[i].answer == Created(ResponseTo(log[i].call.body, log[i].drawn))
  {
    var prefix, last := log[..|log| - 1], log[|log| - 1];
    if key in State(start, prefix).keys {
      i := KeyHasAnAuthor(start, prefix, key);
      ApplyExtends(State(start, prefix), last.call, last.drawn);
    } else {
      i := |log| - 1;
    }
  }

  lemma AuthorOf(start: Db, log: seq<Decision>, j: nat) returns (i: nat)
    requires Serial(start, log) && j < |log| && (log[j].answer.Replayed? || log[j].answer.KeyConflict?)
    requires log[j].call.key !in start.keys
    ensures i < j && log[i].answer.Created? && log[i].call.key == log[j].call.key
    ensures log[j].answer == AnswerAfter(log[i], log[j].call)
  {
    SerialAt(start, log, j);
    assert log[j].call.key in State(start, log[..j]).keys;
    i := KeyHasAnAuthor(start, log[..j], log[j].call.key);
    UsedKeyAnswers(State(start, log[..j]), log[j].call, log[j].drawn, log[i]);
  }

  /** Requests under a key that is not used up yet are refused on their own merits. */
  lemma BeforeSuccess(start: Db, log: seq<Decision>, key: string, j: nat)
    requires Serial(start, log) && j < |log| && log[j].call.key == key && key !in start.keys
    requires forall i | 0 <= i <= j && log[i].call.key == key :: !log[i].answer.Created?
    ensures Refusal(log[j].answer)
  {
    SerialAt(start, log, j);
    if key in State(start, log[..j]).keys {
      var i := KeyHasAnAuthor(start, log[..j], key);
    }
  }

  /** Answers given on a request's own merits. */
  predicate Refusal(a: Answer) {
    a.AccountNotFound? || a.InsufficientFunds? || a.AmountOutOfRange? || a.SameAccountTransfer?
  }

  /** At most one request per key is carried out. */
  lemma OneSuccess(start: Db, log: seq<Decision>, i: nat, k: nat)
    requires Serial(start, log) && i < |log| && k < |log|
    requires log[i].answer.Created? && log[k].answer.Created? && log[i].call.key == log[k].call.key
    ensures i == k
  {
    if i < k {
      AfterSuccess(start, log, i, k);
    } else if k < i {
      AfterSuccess(start, log, k, i);
    }
  }

  // ---------- Effects ----------

  function EffectOf(d: Decision): seq<Entry> {
    if d.answer.Created? && d.call.body.Transfer? then
      LegsOf(d.call.body.source, d.call.body.destination, d.call.body.amount, d.drawn)
    else []
  }

  function Effects(log: seq<Decision>): seq<Entry> {
    if log == [] then [] else Effects(log[..|log| - 1]) + EffectOf(log[|log| - 1])
  }

  /** The ledger holds the two legs of each transfer answered 201, and nothing else. */
  lemma {:induction false} EntriesAreTheEffects(start: Db, log: seq<Decision>)
    requires Serial(start, log)
    ensures State(start, log).entries == start.entries + Effects(log)
  {
    if log != [] {
      var prefix, last := log[..|log| - 1], log[|log| - 1];
      EntriesAreTheEffects(start, prefix);
      ApplyAppendsTheEffect(State(start, prefix), last);
      assert start.entries + Effects(log) == start.entries + Effects(prefix) + EffectOf(last);
    }
  }

  lemma ApplyAppendsTheEffect(db: Db, d: Decision)
    requires d.answer == Apply(db, d.call, d.drawn).answer
    ensures Apply(db, d.call, d.drawn).db.entries == db.entries + EffectOf(d)
  {
  }

  /** Money brought in by the accounts opened. */
  function Minted(log: seq<Decision>): int {
    if log == [] then 0
    else Minted(log[..|log| - 1]) + MintedBy(log[|log| - 1].call, log[|log| - 1].answer)
  }

  /** Over any history, total value grows by exactly the opening balances answered 201. */
  lemma {:induction false} TotalIsMinted(start: Db, log: seq<Decision>)
    requires Serial(start, log)
    ensures TotalBalance(State(start, log)) == TotalBalance(start) + Minted(log)
  {
    if log != [] {
      var last := log[|log| - 1];
      TotalIsMinted(start, log[..|log| - 1]);
      ApplyConservesMoney(State(start, log[..|log| - 1]), last.call, last.drawn);
    }
  }

  /** ... and each of them is recorded under a key of its own. */
  lemma {:induction false} MintedIsByKeys(start: Db, log: seq<Decision>)
    requires Serial(start, log)
    ensures Minted(log) == TotalMinted(State(start, log)) - TotalMinted(start)
  {
    if log != [] {
      var last := log[|log| - 1];
      MintedIsByKeys(start, log[..|log| - 1]);
      ApplyRecordsTheMint(State(start, log[..|log| - 1]), last.call, last.drawn);
    }
  }

  lemma ApplyRecordsTheMint(db: Db, call: Call, f: Fresh)
    ensures var r := Apply(db, call, f);
            TotalMinted(r.db) == TotalMinted(db) + MintedBy(call, r.answer)
  {
    var r := Apply(db, call, f);
    if r.answer.Created? {
      ApplyStoresTheRecord(db, call, f);
      TotalUpdate<string>(KeyMints(db), call.key, MintedBy(call, r.answer));
      assert KeyMints(r.db) == KeyMints(db)[call.key := MintedBy(call, r.answer)];
    } else {
      ApplyChangesNothingElse(db, call, f);
    }
  }

  lemma {:induction false} MintedGrows(start: Db, log: seq<Decision>, i: nat)
    requires Serial(start, log) && i <= |log|
    ensures Minted(log[..i]) <= Minted(log)
    decreases |log|
  {
    if i == |log| {
      assert log[..i] == log;
    } else {
      MintedGrows(start, log[..|log| - 1], i);
      assert log[..|log| - 1][..i] == log[..i];
    }
  }

  // ---------- Failures drop out ----------

  /** The requests that were carried out. */
  function Carried(log: seq<Decision>): seq<Decision> {
    if log == [] then []
    else
      var last := log[|log| - 1];
      Carried(log[..|log| - 1]) + if last.answer.Created? then [last] else []
  }

  /** Serving only the requests that were carried out gives the same database: the others might as
      well never have been sent. */
  lemma {:induction false} CarriedSuffices(start: Db, log: seq<Decision>)
    requires Serial(start, log)
    ensures Serial(start, Carried(log)) && State(start, Carried(log)) == State(start, log)
  {
    if log != [] {
      var prefix, last := log[..|log| - 1], log[|log| - 1];
      CarriedSuffices(start, prefix);
      if last.answer.Created? {
        SerialAppend(start, Carried(prefix), last);
      } else {
        ApplyChangesNothingElse(State(start, prefix), last.call, last.drawn);
        assert Carried(log) == Carried(prefix);
      }
    }
  }

  lemma {:induction false} CarriedMembers(log: seq<Decision>, d: Decision)
    ensures d in Carried(log) <==> d in log && d.answer.Created?
  {
    if log != [] {
      var prefix, last := log[..|log| - 1], log[|log| - 1];
      CarriedMembers(prefix, d);
      assert log == prefix + [last];
    }
  }
}
