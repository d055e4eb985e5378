/** The fast path is only an optimisation, and a request alone gets the sequential answer. */
module FastPath {
  import opened Models
  import opened Requests
  import opened Ledger
  import opened Protocol
  import opened Invariants
  import opened Guarantees
  import opened Liveness

  // ---------- execute_once without its first read ----------

  predicate NeverReadsFast(acts: seq<Action>) {
    forall i | 0 <= i < |acts| :: !acts[i].FastRead?
  }

  /** A hit on the fast path, obtained the slow way: the insert conflicts with the committed key,
      and the winner's record is read back. */
  function SlowReplay(r: Rid): seq<Action> {
    [SkipRead(r), Begin(r, 0), Duplicate(r), RereadWinner(r)]
  }

  lemma FourSteps(w: World, w1: World, w2: World, w3: World, w4: World, a: Action, b: Action, c: Action, d: Action)
    requires Enabled(w, a) && w1 == Step(w, a) && Enabled(w1, b) && w2 == Step(w1, b)
    requires Enabled(w2, c) && w3 == Step(w2, c) && Enabled(w3, d) && w4 == Step(w3, d)
    ensures Leads(w, [a, b, c, d], w4)
  {
    hide Step, Enabled, Leads;
    OneStep(w, a);
    OneStepMore(w, [a], w1, b);
    OneStepMore(w, [a] + [b], w2, c);
    OneStepMore(w, [a] + [b] + [c], w3, d);
    assert [a, b, c, d] == [a] + [b] + [c] + [d];
  }

  lemma ReleasingNothing(w: World, r: Rid)
    requires HoldsNothing(w, r)
    ensures Release(w, r) == w
  {
    assert Release(w, r).claims == w.claims && Release(w, r).rowLocks == w.rowLocks;
  }

  /** Deciding does not depend on which phase the request was in. */
  lemma RefusingForgetsThePhase(w: World, r: Rid, phase: Phase, answer: Answer)
    requires r in w.procs
    ensures Refuse(Put(w, r, phase), r, answer) == Refuse(w, r, answer)
  {
    var w' := Put(w, r, phase);
    assert Decide(w', r, NOTHING_DRAWN, answer).log == Decide(w, r, NOTHING_DRAWN, answer).log;
    assert Put(Decide(w', r, NOTHING_DRAWN, answer), r, Finished(answer))
        == Put(Decide(w, r, NOTHING_DRAWN, answer), r, Finished(answer));
  }

  lemma PuttingTwice(w: World, r: Rid, one: Phase, two: Phase)
    requires r in w.procs
    ensures Put(Put(w, r, one), r, two) == Put(w, r, two)
  {
  }

  lemma BeginStep(w: World, r: Rid, ts: int)
    requires r in w.procs && w.procs[r].phase.Reading?
    ensures Enabled(w, SkipRead(r)) && Step(w, SkipRead(r)) == Put(w, r, Missed)
    ensures Enabled(Put(w, r, Missed), Begin(r, ts))
    ensures Step(Put(w, r, Missed), Begin(r, ts)) == Put(w, r, Claiming(ts))
  {
    PuttingTwice(w, r, Missed, Claiming(ts));
  }

  lemma DuplicateStep(w: World, r: Rid, ts: int)
    requires r in w.procs && w.procs[r].phase.Reading? && HoldsNothing(w, r)
    requires w.procs[r].call.key in w.db.keys && w.procs[r].call.key !in w.claims
    ensures Enabled(Put(w, r, Claiming(ts)), Duplicate(r))
    ensures Step(Put(w, r, Claiming(ts)), Duplicate(r)) == Put(w, r, RaceLost)
  {
    PuttingTwice(w, r, Claiming(ts), RaceLost);
    ReleasingNothing(Put(w, r, RaceLost), r);
  }

  lemma RereadStep(w: World, r: Rid)
    requires r in w.procs && w.procs[r].phase.Reading? && w.procs[r].call.key in w.db.keys
    ensures Enabled(Put(w, r, RaceLost), RereadWinner(r))
    ensures Step(Put(w, r, RaceLost), RereadWinner(r)) == Step(w, FastRead(r))
  {
    RefusingForgetsThePhase(w, r, RaceLost, Replay(w.db.keys[w.procs[r].call.key], w.procs[r].call));
  }

  lemma SlowReplayIsFastRead(w: World, r: Rid)
    requires r in w.procs && w.procs[r].phase.Reading? && HoldsNothing(w, r)
    requires w.procs[r].call.key in w.db.keys && w.procs[r].call.key !in w.claims
    ensures Leads(w, SlowReplay(r), Step(w, FastRead(r)))
  {
    BeginStep(w, r, 0);
    DuplicateStep(w, r, 0);
    RereadStep(w, r);
    FourSteps(w, Put(w, r, Missed), Put(w, r, Claiming(0)), Put(w, r, RaceLost), Step(w, FastRead(r)),
            SkipRead(r), Begin(r, 0), Duplicate(r), RereadWinner(r));
  }

  lemma SlowMissIsFastMiss(w: World, r: Rid)
    requires r in w.procs && w.procs[r].phase.Reading? && w.procs[r].call.key !in w.db.keys
    ensures Step(w, SkipRead(r)) == Step(w, FastRead(r))
  {
  }

  lemma ReadersHoldNothing(start: Db, w: World, r: Rid)
    requires Inv(start, w) && Enabled(w, FastRead(r))
    ensures w.procs[r].phase.Reading? && HoldsNothing(w, r)
    ensures w.procs[r].call.key in w.db.keys ==> w.procs[r].call.key !in w.claims
  {
    NothingHeld(w, r);
  }

  /** One step without the fast path, or a few that come to the same. */
  ghost function SlowSteps(w: World, a: Action): seq<Action>
    requires Enabled(w, a)
  {
    if !a.FastRead? then [a]
    else if w.procs[a.r].call.key in w.db.keys then SlowReplay(a.r)
    else [SkipRead(a.r)]
  }

  lemma SlowStepsAreSlow(w: World, a: Action, prefix: seq<Action>)
    requires Enabled(w, a) && NeverReadsFast(prefix)
    ensures NeverReadsFast(prefix + SlowSteps(w, a))
  {
    hide Enabled;
  }

  lemma SlowStepsRun(start: Db, w: World, a: Action)
    requires Inv(start, w) && Enabled(w, a)
    ensures Leads(w, SlowSteps(w, a), Step(w, a))
  {
    if !a.FastRead? {
      hide Step, Enabled, Leads;
      OneStep(w, a);
    } else {
      ReadersHoldNothing(start, w, a.r);
      hide Inv, Step, Leads, Enabled;
      if w.procs[a.r].call.key in w.db.keys {
        SlowReplayIsFastRead(w, a.r);
      } else {
        SlowMissIsFastMiss(w, a.r);
        BeginStep(w, a.r, 0);
        OneStep(w, SkipRead(a.r));
      }
    }
  }

  /** Whatever a run does, a run that never takes the fast path does too: the same committed
      database, the same answers, the same everything. */
  lemma {:induction false} FastPathIsOnlyAnOptimisation(w0: World, acts: seq<Action>, w: World)
    returns (slow: seq<Action>)
    requires Initial(w0) && Leads(w0, acts, w)
    ensures NeverReadsFast(slow) && Leads(w0, slow, w)
    decreases |acts|
  {
    hide Leads, Step, Enabled, Inv;
    if acts == [] {
      slow := [];
    } else {
      var before := LastStep(w0, acts, w);
      var a := acts[|acts| - 1];
      var prefix := FastPathIsOnlyAnOptimisation(w0, acts[..|acts| - 1], before);
      RunInv(w0, acts[..|acts| - 1], before);
      SlowStepsRun(w0.db, before, a);
      OneAfterTheOther(w0, prefix, before, SlowSteps(before, a), w);
      SlowStepsAreSlow(before, a, prefix);
      slow := prefix + SlowSteps(before, a);
    }
  }

  // ---------- A request by itself ----------

  /** Nobody else holds anything r will ask for. */
  ghost predicate Unobstructed(w: World, r: Rid)
    requires r in w.procs
  {
    var c := w.procs[r].call;
    && (c.key in w.claims ==> w.claims[c.key] == r)
    && forall i | 0 <= i < |LockOrder(c.body)| && LockOrder(c.body)[i] in w.rowLocks ::
         w.rowLocks[LockOrder(c.body)[i]] == r
  }

  lemma UnobstructedNeverWaits(start: Db, w: World, r: Rid)
    requires Inv(start, w) && r in w.procs && Unobstructed(w, r)
    ensures WaitsFor(w, r).None?
  {
    assert ProcOk(w, r);
  }

  /** Claims and locks of w' that w does not have are r's. */
  ghost predicate GainsOnlyFor(w: World, w': World, r: Rid) {
    && (forall k | k in w'.claims :: w'.claims[k] == r || (k in w.claims && w.claims[k] == w'.claims[k]))
    && (forall id | id in w'.rowLocks ::
          w'.rowLocks[id] == r || (id in w.rowLocks && w.rowLocks[id] == w'.rowLocks[id]))
  }

  /** A step takes claims and locks for its own request only. */
  lemma OnlyOwnGains(w: World, a: Action)
    requires Enabled(w, a) && a.r in w.procs
    ensures GainsOnlyFor(w, Step(w, a), a.r)
  {
    hide Step, Enabled, Refuses, GivesUp, Advances, RefusalOf, NextPhase, LastPhase, GainsOnlyFor, AfterIssue;
    if Refuses(w, a) {
      RefusalStep(w, a);
      RefusingGains(w, a, RefusalOf(w, a));
    } else if GivesUp(w, a) {
      GiveUpStep(w, a);
      AbandoningGains(w, a, LastPhase(a));
    } else if Advances(w, a) {
      AdvanceStep(w, a);
      PuttingGains(w, a, NextPhase(w, a));
    } else {
      GainsOfOtherSteps(w, a);
    }
  }

  lemma RefusingGains(w: World, a: Action, answer: Answer)
    requires a.r in w.procs
    ensures GainsOnlyFor(w, Refuse(AfterIssue(w, a), a.r, answer), a.r)
  {
  }

  lemma AbandoningGains(w: World, a: Action, phase: Phase)
    requires a.r in w.procs
    ensures GainsOnlyFor(w, Abandon(w, a.r, phase), a.r)
  {
  }

  lemma PuttingGains(w: World, a: Action, phase: Phase)
    requires a.r in w.procs
    ensures GainsOnlyFor(w, Put(w, a.r, phase), a.r)
  {
  }

  lemma GainsOfOtherSteps(w: World, a: Action)
    requires Enabled(w, a) && !Refuses(w, a) && !GivesUp(w, a) && !Advances(w, a)
    ensures GainsOnlyFor(w, Step(w, a), a.r)
  {
  }

  lemma StaysUnobstructed(w: World, a: Action, w': World)
    requires Enabled(w, a) && w' == Step(w, a) && a.r in w.procs && Unobstructed(w, a.r)
    requires w'.procs[a.r].call == w.procs[a.r].call
    ensures Unobstructed(w', a.r)
  {
    hide Step, Enabled;
    OnlyOwnGains(w, a);
  }

  /** The log is as it was, or r's outcome has been added to it. */
  ghost predicate AtMostOneEntry(w: World, w': World, r: Rid) {
    && r in w.procs && r in w'.procs
    && if w'.log == w.log then w'.procs[r].decided == w.procs[r].decided
       else w.procs[r].decided.None? && w'.procs[r].decided == Some(|w.log|) && |w'.log| == |w.log| + 1
  }

  /** r's outcome is the only thing its steps add to the log. */
  lemma OneEntryPerRequest(start: Db, w: World, a: Action)
    requires Inv(start, w) && Enabled(w, a) && a.r in w.procs
    ensures AtMostOneEntry(w, Step(w, a), a.r)
  {
    assert ProcOk(w, a.r);
    hide Inv, ProcOk, Step, Enabled, Refuses, GivesUp, Advances, RefusalOf, NextPhase, LastPhase;
    if Refuses(w, a) {
      UndecidedUntilRefused(start, w, a);
      RefusalStep(w, a);
    } else if GivesUp(w, a) {
      GiveUpStep(w, a);
    } else if Advances(w, a) {
      AdvanceStep(w, a);
    } else {
      EntryOfOtherSteps(w, a);
    }
  }

  lemma EntryOfOtherSteps(w: World, a: Action)
    requires Enabled(w, a) && !Refuses(w, a) && !GivesUp(w, a) && !Advances(w, a)
    requires a.r in w.procs && ProcOk(w, a.r)
    ensures AtMostOneEntry(w, Step(w, a), a.r)
  {
  }

  /** The next step of r, on the fast path or around it. */
  ghost function SoloStep(w: World, r: Rid, fast: bool, ts: int, t: Uuid, x: Uuid, y: Uuid): Action
    requires r in w.procs
  {
    if w.procs[r].phase.Reading? && !fast then SkipRead(r) else NextStep(w, r, ts, t, x, y)
  }

  /** The uuids are still to be drawn, or r has drawn them. */
  ghost predicate Available(w: World, r: Rid, t: Uuid, x: Uuid, y: Uuid)
    requires r in w.procs
  {
    Unused(w, t, x, y) || w.procs[r].phase.Flushed? || w.procs[r].phase.Committed? || Over(w.procs[r].phase)
  }

  lemma SoloStepEnabled(start: Db, w: World, r: Rid, fast: bool, ts: int, t: Uuid, x: Uuid, y: Uuid)
    requires Inv(start, w) && r in w.procs && !Over(w.procs[r].phase) && Unobstructed(w, r)
    requires Available(w, r, t, x, y)
    ensures var a := SoloStep(w, r, fast, ts, t, x, y);
            a.r == r && Enabled(w, a) && (Productive(a) || a.SkipRead?) && (a.Flush? ==> a == Flush(r, t, x, y))
  {
    UnobstructedNeverWaits(start, w, r);
    assert ProcOk(w, r);
  }

  lemma StaysAvailable(w: World, a: Action, t: Uuid, x: Uuid, y: Uuid)
    requires Enabled(w, a) && a.r in w.procs && !Over(w.procs[a.r].phase)
    requires Available(w, a.r, t, x, y) && (a.Flush? ==> a == Flush(a.r, t, x, y))
    ensures Available(Step(w, a), a.r, t, x, y)
  {
    hide Step, Enabled, Refuses, GivesUp, Advances, RefusalOf, NextPhase;
    if Refuses(w, a) {
      RefusalStep(w, a);
    } else if GivesUp(w, a) {
      GiveUpStep(w, a);
      GivenUpStaysAvailable(w, a, t, x, y);
    } else if Advances(w, a) {
      AdvanceStep(w, a);
      AdvancedStaysAvailable(w, a, t, x, y);
    } else {
      OthersStayAvailable(w, a, t, x, y);
    }
  }

  lemma GivenUpStaysAvailable(w: World, a: Action, t: Uuid, x: Uuid, y: Uuid)
    requires Enabled(w, a) && GivesUp(w, a) && Available(w, a.r, t, x, y) && !Over(w.procs[a.r].phase)
    ensures Available(Abandon(w, a.r, LastPhase(a)), a.r, t, x, y)
  {
  }

  lemma AdvancedStaysAvailable(w: World, a: Action, t: Uuid, x: Uuid, y: Uuid)
    requires Enabled(w, a) && Advances(w, a) && Available(w, a.r, t, x, y)
    ensures Available(Put(w, a.r, NextPhase(w, a)), a.r, t, x, y)
  {
  }

  lemma OthersStayAvailable(w: World, a: Action, t: Uuid, x: Uuid, y: Uuid)
    requires Enabled(w, a) && !Refuses(w, a) && !GivesUp(w, a) && !Advances(w, a)
    requires a.r in w.procs && Available(w, a.r, t, x, y) && (a.Flush? ==> a == Flush(a.r, t, x, y))
    ensures Available(Step(w, a), a.r, t, x, y)
  {
  }

  /** r has drawn its timestamp and uuids from f, if it has drawn any. */
  ghost predicate DrawsOnly(w: World, r: Rid, f: Fresh)
    requires r in w.procs
  {
    var phase := w.procs[r].phase;
    && (phase.Claiming? || phase.Holding? || phase.Funded? ==> phase.ts == f.ts)
    && (phase.Flushed? ==> phase.drawn == f)
    && forall i | 0 <= i < |w.log| && w.log[i].rid == r && w.log[i].answer.Created? :: w.log[i].drawn == f
  }

  predicate DrawsFrom(a: Action, f: Fresh) {
    && (a.Begin? ==> a.ts == f.ts)
    && (a.Flush? ==> a == Flush(a.r, f.resource, f.debit, f.credit))
  }

  lemma StaysDrawn(w: World, a: Action, f: Fresh)
    requires Enabled(w, a) && a.r in w.procs && DrawsOnly(w, a.r, f) && DrawsFrom(a, f)
    ensures DrawsOnly(Step(w, a), a.r, f)
  {
    hide Step, Enabled, Refuses, GivesUp, Advances, RefusalOf, NextPhase, LastPhase, DrawsOnly, AfterIssue;
    if Refuses(w, a) {
      RefusalStep(w, a);
      RefusedStaysDrawn(w, a, RefusalOf(w, a), f);
    } else if GivesUp(w, a) {
      GiveUpStep(w, a);
      GivenUpStaysDrawn(w, a, f);
    } else if Advances(w, a) {
      AdvanceStep(w, a);
      AdvancedStaysDrawn(w, a, f);
    } else {
      OthersStayDrawn(w, a, f);
    }
  }

  lemma RefusedStaysDrawn(w: World, a: Action, answer: Answer, f: Fresh)
    requires a.r in w.procs && DrawsOnly(w, a.r, f) && !answer.Created?
    ensures DrawsOnly(Refuse(AfterIssue(w, a), a.r, answer), a.r, f)
  {
  }

  lemma GivenUpStaysDrawn(w: World, a: Action, f: Fresh)
    requires Enabled(w, a) && GivesUp(w, a) && DrawsOnly(w, a.r, f)
    ensures DrawsOnly(Abandon(w, a.r, LastPhase(a)), a.r, f)
  {
  }

  lemma AdvancedStaysDrawn(w: World, a: Action, f: Fresh)
    requires Enabled(w, a) && Advances(w, a) && DrawsOnly(w, a.r, f) && DrawsFrom(a, f)
    ensures DrawsOnly(Put(w, a.r, NextPhase(w, a)), a.r, f)
  {
  }

  lemma OthersStayDrawn(w: World, a: Action, f: Fresh)
    requires Enabled(w, a) && !Refuses(w, a) && !GivesUp(w, a) && !Advances(w, a)
    requires a.r in w.procs && DrawsOnly(w, a.r, f) && DrawsFrom(a, f)
    ensures DrawsOnly(Step(w, a), a.r, f)
  {
    hide TriggerAccepts, PassesChecks, FitsColumns, WritesOf, Publish, Deadlocked;
  }

  /** r meets nobody, draws from f, and has not been failed. */
  ghost predicate Alone(w: World, r: Rid, f: Fresh)
    requires r in w.procs
  {
    && Unobstructed(w, r) && Available(w, r, f.resource, f.debit, f.credit) && DrawsOnly(w, r, f)
    && (Over(w.procs[r].phase) ==> w.procs[r].phase.Finished? && !Incidental(w.procs[r].phase.answer))
  }

  lemma SoloAdvance(start: Db, w: World, r: Rid, fast: bool, f: Fresh) returns (a: Action, w': World)
    requires Inv(start, w) && r in w.procs && Alone(w, r, f) && !Over(w.procs[r].phase)
    ensures Enabled(w, a) && w' == Step(w, a) && a.r == r && (a.FastRead? ==> fast)
    ensures Inv(start, w') && Alone(w', r, f)
    ensures Budget(w'.procs[r].phase) < Budget(w.procs[r].phase)
  {
    hide Inv, Step, Enabled, Available, Unobstructed, DrawsOnly, Budget;
    SoloStepEnabled(start, w, r, fast, f.ts, f.resource, f.debit, f.credit);
    a := SoloStep(w, r, fast, f.ts, f.resource, f.debit, f.credit);
    w' := Step(w, a);
    StepKeepsInv(start, w, a);
    StaysUnobstructed(w, a, w');
    StaysAvailable(w, a, f.resource, f.debit, f.credit);
    StaysDrawn(w, a, f);
    BackstopsNeverFireHere(start, w, a, w'.procs[r].phase);
    StepsCostBudget(w, a);
  }

  predicate AllBy(acts: seq<Action>, r: Rid) {
    forall i | 0 <= i < |acts| :: acts[i].r == r
  }

  /** Runs r to its end, with nobody else moving. */
  lemma {:induction false} SoloRun(start: Db, w: World, r: Rid, fast: bool, f: Fresh)
    returns (acts: seq<Action>, w': World)
    requires Inv(start, w) && r in w.procs && Alone(w, r, f)
    ensures Leads(w, acts, w') && AllBy(acts, r) && (fast || NeverReadsFast(acts))
    ensures r in w'.procs && Over(w'.procs[r].phase) && Alone(w', r, f)
    decreases Budget(w.procs[r].phase)
  {
    hide Leads, Inv, Step, Enabled, Budget, Alone;
    if Over(w.procs[r].phase) {
      acts, w' := [], w;
      StandingStill(w, w);
    } else {
      var a, w1 := SoloAdvance(start, w, r, fast, f);
      var rest;
      rest, w' := SoloRun(start, w1, r, fast, f);
      OneStep(w, a);
      OneAfterTheOther(w, [a], w1, rest, w');
      acts := [a] + rest;
    }
  }

  /** A run in which only r moves adds only r's outcome to the log. */
  lemma {:induction false} SoloLog(start: Db, w: World, acts: seq<Action>, w': World, r: Rid)
    requires Inv(start, w) && r in w.procs && Leads(w, acts, w') && AllBy(acts, r)
    ensures Inv(start, w') && AtMostOneEntry(w, w', r)
    ensures w.log <= w'.log && w'.procs[r].call == w.procs[r].call
    decreases |acts|
  {
    hide Leads, Inv, Step, Enabled;
    if acts == [] {
      StandingStill(w, w');
    } else {
      var before := LastStep(w, acts, w');
      SoloLog(start, w, acts[..|acts| - 1], before, r);
      StepKeepsInv(start, before, acts[|acts| - 1]);
      OneEntryPerRequest(start, before, acts[|acts| - 1]);
    }
  }

  /** However r gets to its answer by itself, it is the sequential ledger's, and so is the effect. */
  lemma SoloRunsAreSequential(start: Db, w: World, acts: seq<Action>, w': World, r: Rid)
    requires Inv(start, w) && r in w.procs && w.procs[r].phase.Received?
    requires Leads(w, acts, w') && AllBy(acts, r)
    requires r in w'.procs && w'.procs[r].phase.Finished? && !Incidental(w'.procs[r].phase.answer)
    ensures |w'.log| == |w.log| + 1 && w'.log[|w.log|].rid == r
    ensures w'.procs[r].phase.answer == w'.log[|w.log|].answer
    ensures Apply(w.db, w.procs[r].call, w'.log[|w.log|].drawn) == Reply(w'.db, w'.procs[r].phase.answer)
  {
    SoloLog(start, w, acts, w', r);
    assert ProcOk(w, r) && ProcOk(w', r);
    assert w'.log[..|w.log|] == w.log;
  }

  lemma RefusalsIgnoreWhatWasDrawn(db: Db, call: Call, f: Fresh, g: Fresh)
    requires !Apply(db, call, f).answer.Created?
    ensures Apply(db, call, g) == Apply(db, call, f)
  {
  }

  lemma Newcomer(start: Db, w: World, r: Rid, f: Fresh)
    requires Inv(start, w) && r in w.procs && w.procs[r].phase.Received?
    requires Unobstructed(w, r) && Unused(w, f.resource, f.debit, f.credit)
    ensures Alone(w, r, f)
  {
    assert ProcOk(w, r);
  }

  /** A request that meets nobody can be run to its answer on the fast path or around it, and gets
      the sequential ledger's answer and effect either way, whatever was tried before it. */
  lemma AloneMeansSequential(start: Db, w: World, r: Rid, fast: bool, f: Fresh)
    returns (acts: seq<Action>, w': World)
    requires Inv(start, w) && r in w.procs && w.procs[r].phase.Received?
    requires Unobstructed(w, r) && Unused(w, f.resource, f.debit, f.credit)
    ensures Leads(w, acts, w') && AllBy(acts, r) && (fast || NeverReadsFast(acts))
    ensures r in w'.procs
    ensures var reply := Apply(w.db, w.procs[r].call, f);
            w'.db == reply.db && w'.procs[r].phase == Finished(reply.answer)
  {
    hide Inv, Leads, Apply, Unobstructed, Unused, Available;
    Newcomer(start, w, r, f);
    acts, w' := SoloRun(start, w, r, fast, f);
    SoloRunsAreSequential(start, w, acts, w', r);
    var d := w'.log[|w.log|];
    if !d.answer.Created? {
      RefusalsIgnoreWhatWasDrawn(w.db, w.procs[r].call, d.drawn, f);
    }
  }
}
