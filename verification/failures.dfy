/** What failures mean. The service says a 500 means that nothing was applied (app/errors.py); that
    fails for an exception after the commit. These are the facts a client can rely on instead, after a
    500 or any other end: a request sent again is replayed if it took effect, and starts afresh if not. */
module Failures {
  import opened Models
  import opened Ledger
  import opened History
  import opened Protocol
  import opened Invariants
  import opened Guarantees
  import opened Liveness
  import opened FastPath

  /** The request took effect, whatever its client was told. */
  ghost predicate Applied(w: World, r: Rid) {
    exists i :: 0 <= i < |w.log| && w.log[i].rid == r && w.log[i].answer.Created?
  }

  ghost predicate Told500(w: World, r: Rid) {
    r in w.procs && w.procs[r].phase == Finished(InternalError)
  }

  // ---------- Where the promise fails ----------

  lemma OnlyRespondingSays201(w: World, a: Action)
    requires Enabled(w, a) && a.r in w.procs
    requires var phase := Step(w, a).procs[a.r].phase; phase.Finished? && phase.answer.Created?
    ensures a == Respond(a.r) && w.procs[a.r].phase.Committed? && Step(w, a).db == w.db
  {
    hide Step, Enabled, Refuses, GivesUp, Advances, RefusalOf, NextPhase, LastPhase, AfterIssue;
    if Refuses(w, a) {
      RefusalStep(w, a);
    } else if GivesUp(w, a) {
      GiveUpStep(w, a);
      GivingUpIsNo201(a);
    } else if Advances(w, a) {
      AdvanceStep(w, a);
      AdvancingTo201(w, a);
    } else {
      OthersDoNotAnswer(w, a);
    }
  }

  lemma GivingUpIsNo201(a: Action)
    ensures LastPhase(a).Finished? ==> !LastPhase(a).answer.Created?
  {
  }

  lemma AdvancingTo201(w: World, a: Action)
    requires Enabled(w, a) && Advances(w, a) && NextPhase(w, a).Finished?
    ensures a == Respond(a.r) && w.procs[a.r].phase.Committed?
  {
  }

  lemma OthersDoNotAnswer(w: World, a: Action)
    requires Enabled(w, a) && !Refuses(w, a) && !GivesUp(w, a) && !Advances(w, a)
    ensures var phase := Step(w, a).procs[a.r].phase;
            phase.Finished? ==> phase.answer.InternalError?
  {
    hide TriggerAccepts, PassesChecks, FitsColumns, WritesOf, Publish, Deadlocked;
  }

  lemma FailingAfterTheCommit(w: World, r: Rid)
    requires r in w.procs && w.procs[r].phase.Committed?
    ensures Enabled(w, Fail(r)) && Step(w, Fail(r)) == Abandon(w, r, Finished(InternalError))
  {
  }

  /** Where the promise fails: any request that would be answered 201 can instead be answered 500 with
      its effect in the database. */
  lemma A500MayHideAnEffect(w0: World, acts: seq<Action>, w: World, r: Rid, f: Fresh)
    returns (more: seq<Action>, w': World)
    requires Initial(w0) && Leads(w0, acts, w) && r in w.procs && w.procs[r].phase.Received?
    requires Unobstructed(w, r) && Unused(w, f.resource, f.debit, f.credit)
    requires Apply(w.db, w.procs[r].call, f).answer.Created?
    ensures Leads(w, more, w') && AllBy(more, r)
    ensures Told500(w', r) && w'.db == Apply(w.db, w.procs[r].call, f).db
  {
    hide Initial, Leads, Inv, Enabled, Step, Apply, Unobstructed, Unused;
    RunInv(w0, acts, w);
    var done, answered := AloneMeansSequential(w0.db, w, r, true, f);
    if done == [] {
      StandingStill(w, answered);
    }
    var committed := LastStep(w, done, answered);
    var last := done[|done| - 1];
    var before := done[..|done| - 1];
    assert AllBy(before, r) && last.r == r;
    StillThere(w, before, committed, r);
    OnlyRespondingSays201(committed, last);
    FailingAfterTheCommit(committed, r);
    more, w' := before + [Fail(r)], Step(committed, Fail(r));
    OneStepMore(w, before, committed, Fail(r));
  }

  lemma {:induction false} StillThere(w: World, acts: seq<Action>, w': World, r: Rid)
    requires Leads(w, acts, w') && r in w.procs
    ensures r in w'.procs && w'.procs[r].call == w.procs[r].call
    decreases |acts|
  {
    hide Leads, Enabled, Step;
    if acts == [] {
      StandingStill(w, w');
    } else {
      var before := LastStep(w, acts, w');
      StillThere(w, acts[..|acts| - 1], before, r);
    }
  }

  /** A 500 was not applied exactly when the exception came before the commit. */
  lemma InternalErrorMayFollowACommit(w0: World, acts: seq<Action>, w: World, r: Rid, w': World)
    requires Initial(w0) && Leads(w0, acts, w) && Enabled(w, Fail(r)) && w' == Step(w, Fail(r))
    ensures Told500(w', r)
    ensures Applied(w', r) <==> w.procs[r].phase.Committed?
  {
    RunInv(w0, acts, w);
    assert ProcOk(w, r);
    if w.procs[r].phase.Committed? {
      assert w'.log[w.procs[r].decided.value].rid == r;
    }
  }

  // ---------- What a client can do about it ----------

  lemma OverIsOver(w: World, a: Action, r: Rid)
    requires Enabled(w, a) && r in w.procs && Over(w.procs[r].phase)
    ensures Step(w, a).procs[r] == w.procs[r]
  {
    if a.r == r {
      StepsCostBudget(w, a);
      ArrivalsAreNew(w, a);
      assert false;
    }
  }

  lemma {:induction false} StaysOver(w: World, acts: seq<Action>, w': World, r: Rid)
    requires Leads(w, acts, w') && r in w.procs && Over(w.procs[r].phase)
    ensures r in w'.procs && w'.procs[r] == w.procs[r]
    decreases |acts|
  {
    hide Leads, Enabled, Step;
    if acts == [] {
      StandingStill(w, w');
    } else {
      var before := LastStep(w, acts, w');
      StaysOver(w, acts[..|acts| - 1], before, r);
      OverIsOver(before, acts[|acts| - 1], r);
    }
  }

  lemma ResendOfApplied(start: Db, log: seq<Decision>, i: nat, j: nat)
    requires Serial(start, log) && i < j < |log| && log[i].answer.Created? && log[i].call == log[j].call
    ensures log[j].answer == Replayed(Some(log[i].answer.response))
  {
    SerialAt(start, log, i);
    ApplyStoresTheRecord(State(start, log[..i]), log[i].call, log[i].drawn);
    AfterSuccess(start, log, i, j);
  }

  /** The request has ended, by an answer of any kind or by a crash; it was sent again, and answered. */
  ghost predicate Resent(w: World, r: Rid, after: seq<Action>, w': World, s: Rid, answer: Answer) {
    && r in w.procs && Over(w.procs[r].phase) && Leads(w, after, w') && s !in w.procs
    && Answered(w', s, answer) && w'.procs[s].call == w.procs[r].call
  }

  /** Sending the same request again under the same key is safe, and tells which kind of end it was:
      if the first was applied, the answer is 200 with its original response. */
  lemma ResendReplaysWhatWasApplied(
    w0: World, before: seq<Action>, w: World, r: Rid, after: seq<Action>, w': World, s: Rid, answer: Answer)
    requires Initial(w0) && Leads(w0, before, w) && Resent(w, r, after, w', s, answer) && Applied(w, r)
    ensures exists i :: 0 <= i < |w.log| && w.log[i].rid == r && w.log[i].answer.Created?
                        && answer == Replayed(Some(w.log[i].answer.response))
  {
    RunInv(w0, before, w);
    RunKeepsInv(w0.db, w, after, w');
    var i :| 0 <= i < |w.log| && w.log[i].rid == r && w.log[i].answer.Created?;
    var j := PlaceInLog(w', s, answer);
    SerialOrderRespectsRealTime(w0, before, w, after, w', s, i, j);
    assert w.log[i].call == w.procs[r].call by {
      assert ProcOk(w, r);
    }
    ResendOfApplied(w0.db, w'.log, i, j);
  }

  lemma NeverApplied(w0: World, before: seq<Action>, w: World, r: Rid, after: seq<Action>, w': World, i: nat)
    requires Initial(w0) && Leads(w0, before, w) && Leads(w, after, w')
    requires r in w.procs && Over(w.procs[r].phase) && !Applied(w, r)
    requires i < |w'.log| && w'.log[i].rid == r
    ensures !w'.log[i].answer.Created?
  {
    RunInv(w0, before, w);
    RunKeepsInv(w0.db, w, after, w');
    StaysOver(w, after, w', r);
    LogOnlyGrows(w, after, w');
    hide Initial, Leads;
    assert ProcOk(w, r);
    assert w'.procs[r].decided == Some(i);
    assert w.log[i].rid == r;
  }

  /** If it was not applied, because it was refused, timed out, failed or crashed, and the key was used
      for nothing else, the answer is the one a first attempt gets: 201, or a refusal on its own merits.
      So 200 says that the first was applied, and any other answer that it was not. */
  lemma ResendOfUnappliedIsAFirstAttempt(
    w0: World, before: seq<Action>, w: World, r: Rid, after: seq<Action>, w': World, s: Rid, answer: Answer)
    requires Initial(w0) && Leads(w0, before, w) && Resent(w, r, after, w', s, answer) && !Applied(w, r)
    requires w.procs[r].call.key !in w0.db.keys
    requires forall q | q in w'.procs && w'.procs[q].call.key == w.procs[r].call.key :: q == r || q == s
    ensures answer.Created? || Refusal(answer)
  {
    RunInv(w0, before, w);
    RunKeepsInv(w0.db, w, after, w');
    hide Initial, Leads, Applied;
    var j := PlaceInLog(w', s, answer);
    forall i | 0 <= i < j && w'.log[i].call.key == w'.log[j].call.key ensures !w'.log[i].answer.Created? {
      assert ProcOk(w', w'.log[i].rid);
      assert w'.log[i].rid == r;
      NeverApplied(w0, before, w, r, after, w', i);
    }
    if !answer.Created? {
      BeforeSuccess(w0.db, w'.log, w'.log[j].call.key, j);
    }
  }
}
