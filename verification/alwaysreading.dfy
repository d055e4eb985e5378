/** The fast path, the other way round: skipping the read gains nothing either. A request that skips it
    although its key is taken learns that from its insert, and could as well have read it at once. */
module AlwaysReading {
  import opened Models
  import opened Requests
  import opened Ledger
  import opened History
  import opened Protocol
  import opened Invariants
  import opened Guarantees
  import opened Liveness
  import opened FastPath

  predicate NeverSkips(acts: seq<Action>) {
    forall i | 0 <= i < |acts| :: !acts[i].SkipRead?
  }

  /** r is past the read, its key is taken, and it has not been told yet. */
  predicate Behind(w: World, r: Rid)
    requires r in w.procs
  {
    var p := w.procs[r];
    (p.phase.Missed? || p.phase.Claiming? || p.phase.RaceLost?) && p.call.key in w.db.keys
  }

  ghost predicate AtTheRead(w: World, v: World, r: Rid)
    requires r in w.procs && r in v.procs
  {
    v.procs[r] == w.procs[r].(phase := Reading)
  }

  /** v is w, except that some requests that are behind in w have yet to read in v. */
  ghost predicate Shadows(w: World, v: World) {
    && v == w.(procs := v.procs) && v.procs.Keys == w.procs.Keys
    && forall r | r in w.procs :: v.procs[r] == w.procs[r] || (Behind(w, r) && AtTheRead(w, v, r))
  }

  // ---------- A step depends on its own request and on what is shared ----------

  /** The world w' with the requests other than r as they are in v. */
  ghost function MovedOnly(w': World, v: World, r: Rid): World
    requires r in w'.procs
  {
    w'.(procs := v.procs[r := w'.procs[r]])
  }

  /** The same worlds, up to other requests and r's phase. */
  ghost predicate Alike(w: World, v: World, r: Rid) {
    && v == w.(procs := v.procs)
    && r in w.procs && r in v.procs
    && v.procs[r].call == w.procs[r].call && v.procs[r].decided == w.procs[r].decided
  }

  lemma RefuseIsLocal(w: World, v: World, a: Action, answer: Answer)
    requires Alike(w, v, a.r)
    ensures Refuse(AfterIssue(v, a), a.r, answer) == MovedOnly(Refuse(AfterIssue(w, a), a.r, answer), v, a.r)
  {
  }

  lemma AbandonIsLocal(w: World, v: World, r: Rid, phase: Phase)
    requires Alike(w, v, r)
    ensures Abandon(v, r, phase) == MovedOnly(Abandon(w, r, phase), v, r)
  {
  }

  lemma PutIsLocal(w: World, v: World, r: Rid, phase: Phase)
    requires Alike(w, v, r)
    ensures Put(v, r, phase) == MovedOnly(Put(w, r, phase), v, r)
  {
  }

  /** The request that acts is the same in both. */
  ghost predicate SameActor(w: World, v: World, r: Rid) {
    && v == w.(procs := v.procs)
    && if r in w.procs then r in v.procs && v.procs[r] == w.procs[r] else r !in v.procs
  }

  lemma EnabledIsLocal(w: World, v: World, a: Action)
    requires Enabled(w, a) && !a.DeadlockVictim? && SameActor(w, v, a.r)
    ensures Enabled(v, a) && Refuses(v, a) == Refuses(w, a)
    ensures GivesUp(v, a) == GivesUp(w, a) && Advances(v, a) == Advances(w, a)
    ensures Refuses(w, a) ==> RefusalOf(v, a) == RefusalOf(w, a)
    ensures Advances(w, a) ==> NextPhase(v, a) == NextPhase(w, a)
  {
    hide TriggerAccepts, PassesChecks, FitsColumns, WritesOf, Publish, Admitted, RowOf;
  }

  lemma SucceedIsLocal(w: World, v: World, r: Rid, f: Fresh, response: Response, db: Db)
    requires Alike(w, v, r)
    ensures Succeed(v, r, f, response, db) == MovedOnly(Succeed(w, r, f, response, db), v, r)
  {
  }

  lemma CommitIsLocal(w: World, v: World, r: Rid)
    requires Enabled(w, Commit(r)) && Enabled(v, Commit(r)) && SameActor(w, v, r)
    ensures Step(v, Commit(r)) == MovedOnly(Step(w, Commit(r)), v, r)
  {
    var p := w.procs[r];
    var f, response := p.phase.drawn, ResponseTo(p.call.body, p.phase.drawn);
    var wr := WritesOf(p.call, p.phase.rows, f);
    hide TriggerAccepts, WritesOf, Publish, Succeed, Abandon, MovedOnly;
    SucceedIsLocal(w, v, r, f, response, Publish(w.db, p.call.key, wr));
    AbandonIsLocal(w, v, r, Finished(InternalError));
  }

  lemma FlushIsLocal(w: World, v: World, a: Action)
    requires a.Flush? && Enabled(w, a) && Enabled(v, a) && SameActor(w, v, a.r) && !Refuses(w, a)
    ensures Step(v, a) == MovedOnly(Step(w, a), v, a.r)
  {
    var p := w.procs[a.r];
    var issued, issued' := AfterIssue(w, a), AfterIssue(v, a);
    hide FitsColumns, PassesChecks, WritesOf, Put, Abandon;
    PutIsLocal(issued, issued', a.r, Flushed(Fresh(p.phase.ts, a.resource, a.debit, a.credit), p.phase.rows));
    AbandonIsLocal(issued, issued', a.r, Finished(InternalError));
  }

  lemma OtherStepsAreLocal(w: World, v: World, a: Action)
    requires Enabled(w, a) && Enabled(v, a) && SameActor(w, v, a.r)
    requires !Refuses(w, a) && !GivesUp(w, a) && !Advances(w, a)
    ensures Step(v, a) == MovedOnly(Step(w, a), v, a.r)
  {
    if a.Flush? {
      hide Step, Enabled, Refuses, GivesUp, Advances;
      FlushIsLocal(w, v, a);
    } else if a.Commit? {
      hide Step, Enabled, Refuses, GivesUp, Advances;
      CommitIsLocal(w, v, a.r);
    } else if a.RereadWinner? {
      AbandonIsLocal(w, v, a.r, Finished(InternalError));
    } else {
      assert a.Arrive? || a.Claim? || a.LockRow?;
    }
  }

  lemma StepIsLocal(w: World, v: World, a: Action)
    requires Enabled(w, a) && !a.DeadlockVictim? && SameActor(w, v, a.r)
    ensures Enabled(v, a) && Step(v, a) == MovedOnly(Step(w, a), v, a.r)
  {
    ArrivalsAreNew(w, a);
    hide Step, Enabled, Refuses, GivesUp, Advances, RefusalOf, NextPhase, LastPhase, AfterIssue, MovedOnly;
    EnabledIsLocal(w, v, a);
    if Refuses(w, a) {
      UnfinishedUntilRefused(w, a);
      RefusalStep(w, a);
      RefusalStep(v, a);
      RefuseIsLocal(w, v, a, RefusalOf(w, a));
    } else if GivesUp(w, a) {
      GivingUpIsUnfinished(w, a);
      GiveUpStep(w, a);
      GiveUpStep(v, a);
      AbandonIsLocal(w, v, a.r, LastPhase(a));
    } else if Advances(w, a) {
      AdvanceCost(w, a);
      AdvanceStep(w, a);
      AdvanceStep(v, a);
      PutIsLocal(w, v, a.r, NextPhase(w, a));
    } else {
      OtherStepsAreLocal(w, v, a);
    }
  }

  // ---------- Following a run that skips ----------

  lemma KeysStayTaken(start: Db, w: World, w': World)
    requires LogOk(start, w) && LogOk(start, w') && w.log <= w'.log
    ensures w.db.keys.Keys <= w'.db.keys.Keys
  {
    NothingIsForgotten(start, w'.log, |w.log|);
    assert w'.log[..|w.log|] == w.log;
  }

  /** One request moves; the others stay as they were, and those behind stay behind. */
  lemma StillShadows(w: World, v: World, w': World, v': World, r: Rid)
    requires Shadows(w, v) && w'.procs.Keys == w.procs.Keys + {r}
    requires forall s | s in w.procs && s != r :: w'.procs[s] == w.procs[s]
    requires w.db.keys.Keys <= w'.db.keys.Keys
    requires v' == w'.(procs := v'.procs) && v'.procs.Keys == v.procs.Keys + {r}
    requires forall s | s in v.procs && s != r :: v'.procs[s] == v.procs[s]
    requires v'.procs[r] == w'.procs[r] || (Behind(w', r) && AtTheRead(w', v', r))
    ensures Shadows(w', v')
  {
  }

  /** What a request that is behind can do. */
  lemma BehindSteps(start: Db, w: World, a: Action)
    requires Inv(start, w) && Enabled(w, a) && a.r in w.procs && Behind(w, a.r)
    ensures a.Begin? || a.Duplicate? || a.RereadWinner? || a.Fail? || a.Crash?
  {
    if a.DeadlockVictim? {
      NoDeadlockHere(start, w, a.r);
      VictimIsDeadlocked(w, a.r);
    }
  }

  lemma BehindStep(start: Db, w: World, a: Action)
    requires Inv(start, w) && Enabled(w, a) && a.r in w.procs && Behind(w, a.r)
    requires a.Begin? || a.Duplicate?
    ensures var w' := Step(w, a);
            w' == Put(w, a.r, w'.procs[a.r].phase) && (w'.procs[a.r].phase.Claiming? || w'.procs[a.r].phase.RaceLost?)
  {
    if a.Duplicate? {
      NothingHeld(w, a.r);
      ReleasingNothing(Put(w, a.r, RaceLost), a.r);
    }
  }

  lemma ReadLate(w: World, v: World, r: Rid)
    requires Enabled(w, RereadWinner(r)) && r in v.procs && Alike(w, v, r) && v.procs[r].phase.Reading?
    requires w.procs[r].call.key in w.db.keys
    ensures Enabled(v, FastRead(r))
    ensures Step(v, FastRead(r)) == MovedOnly(Step(w, RereadWinner(r)), v, r)
  {
    var answer := Replay(w.db.keys[w.procs[r].call.key], w.procs[r].call);
    assert Step(v, FastRead(r)) == Refuse(v, r, answer) && Step(w, RereadWinner(r)) == Refuse(w, r, answer);
    hide Step, Enabled, Refuse;
    RefuseIsLocal(w, v, FastRead(r), answer);
  }

  lemma EndLate(w: World, v: World, a: Action)
    requires Enabled(w, a) && (a.Fail? || a.Crash?) && Alike(w, v, a.r) && v.procs[a.r].phase.Reading?
    ensures Enabled(v, a) && Step(v, a) == MovedOnly(Step(w, a), v, a.r)
  {
    assert Step(v, a) == Abandon(v, a.r, LastPhase(a)) && Step(w, a) == Abandon(w, a.r, LastPhase(a));
    hide Step, Enabled, Abandon;
    AbandonIsLocal(w, v, a.r, LastPhase(a));
  }

  /** One step of a run, followed without skipping a read: by the same step, by the read, or by waiting. */
  lemma Follow(start: Db, w: World, v: World, a: Action) returns (steps: seq<Action>, v': World)
    requires Inv(start, w) && Shadows(w, v) && Enabled(w, a)
    ensures Leads(v, steps, v') && NeverSkips(steps) && Shadows(Step(w, a), v')
  {
    var w', r := Step(w, a), a.r;
    StepKeepsInv(start, w, a);
    KeysStayTaken(start, w, w');
    ArrivalsAreNew(w, a);
    if r in w.procs && v.procs[r] != w.procs[r] {
      steps, v' := FollowBehind(start, w, v, a);
    } else {
      steps, v' := FollowInStep(start, w, v, a);
    }
  }

  lemma FollowBehind(start: Db, w: World, v: World, a: Action) returns (steps: seq<Action>, v': World)
    requires Inv(start, w) && Shadows(w, v) && Enabled(w, a) && w.db.keys.Keys <= Step(w, a).db.keys.Keys
    requires a.r in w.procs && Behind(w, a.r) && AtTheRead(w, v, a.r)
    ensures Leads(v, steps, v') && NeverSkips(steps) && Shadows(Step(w, a), v')
  {
    var w', r := Step(w, a), a.r;
    BehindSteps(start, w, a);
    if a.Begin? || a.Duplicate? {
      BehindStep(start, w, a);
      hide Step, Enabled, Inv, Leads;
      steps, v' := [], v;
      StandingStill(v, v);
    } else {
      hide Inv, Leads;
      var b := if a.RereadWinner? then FastRead(r) else a;
      if a.RereadWinner? {
        ReadLate(w, v, r);
      } else {
        EndLate(w, v, a);
      }
      hide Step, Enabled;
      steps, v' := [b], Step(v, b);
      OneStep(v, b);
    }
    StillShadows(w, v, w', v', r);
  }

  lemma FollowSkip(w: World, v: World, r: Rid) returns (steps: seq<Action>, v': World)
    requires Shadows(w, v) && Enabled(w, SkipRead(r)) && v.procs[r] == w.procs[r]
    ensures Leads(v, steps, v') && NeverSkips(steps) && Shadows(Step(w, SkipRead(r)), v')
  {
    BeginStep(w, r, 0);
    ReadingIsPossible(v, r);
    hide Step, Enabled, Leads;
    if w.procs[r].call.key in w.db.keys {
      steps, v' := [], v;
      StandingStill(v, v);
    } else {
      SlowMissIsFastMiss(v, r);
      BeginStep(v, r, 0);
      steps, v' := [FastRead(r)], Step(v, FastRead(r));
      OneStep(v, FastRead(r));
    }
    StillShadows(w, v, Step(w, SkipRead(r)), v', r);
  }

  lemma FollowInStep(start: Db, w: World, v: World, a: Action) returns (steps: seq<Action>, v': World)
    requires Inv(start, w) && Shadows(w, v) && Enabled(w, a) && w.db.keys.Keys <= Step(w, a).db.keys.Keys
    requires a.r in w.procs ==> v.procs[a.r] == w.procs[a.r]
    ensures Leads(v, steps, v') && NeverSkips(steps) && Shadows(Step(w, a), v')
  {
    NoDeadlockVictim(start, w, a.r);
    ArrivalsAreNew(w, a);
    hide Step, Enabled, Inv, Leads, Behind, AtTheRead;
    if a.SkipRead? {
      steps, v' := FollowSkip(w, v, a.r);
    } else {
      StepIsLocal(w, v, a);
      steps, v' := [a], Step(v, a);
      OneStep(v, a);
      StillShadows(w, v, Step(w, a), v', a.r);
    }
  }

  lemma ReadingIsPossible(w: World, r: Rid)
    requires r in w.procs && w.procs[r].phase.Reading?
    ensures Enabled(w, FastRead(r))
  {
  }

  lemma NoDeadlockVictim(start: Db, w: World, r: Rid)
    requires Inv(start, w)
    ensures !Enabled(w, DeadlockVictim(r))
  {
    NoDeadlockHere(start, w, r);
    VictimIsDeadlocked(w, r);
  }

  lemma {:induction false} EveryRunIsShadowed(w0: World, acts: seq<Action>, w: World)
    returns (reading: seq<Action>, v: World)
    requires Initial(w0) && Leads(w0, acts, w)
    ensures Leads(w0, reading, v) && NeverSkips(reading) && Shadows(w, v)
    decreases |acts|
  {
    hide Initial, Leads, Step, Enabled, Inv, Shadows;
    if acts == [] {
      StandingStill(w0, w);
      reading, v := [], w0;
      ShadowsItself(w0);
    } else {
      var before := LastStep(w0, acts, w);
      var prefix := acts[..|acts| - 1];
      var steps, v0;
      reading, v0 := EveryRunIsShadowed(w0, prefix, before);
      RunInv(w0, prefix, before);
      steps, v := Follow(w0.db, before, v0, acts[|acts| - 1]);
      OneAfterTheOther(w0, reading, v0, steps, v);
      reading := reading + steps;
    }
  }

  lemma ShadowsItself(w: World)
    ensures Shadows(w, w)
  {
  }

  /** Whatever a run does that skips the fast path where it likes, a run that always takes it does too,
      up to the same world, once no request is left that has skipped the read and not been told: the
      same database, the same answers, the same everything. That is so when all requests have ended. */
  lemma SkippingGainsNothing(w0: World, acts: seq<Action>, w: World) returns (reading: seq<Action>)
    requires Initial(w0) && Leads(w0, acts, w) && forall r | r in w.procs :: !Behind(w, r)
    ensures Leads(w0, reading, w) && NeverSkips(reading)
  {
    var v;
    reading, v := EveryRunIsShadowed(w0, acts, w);
    assert v.procs == w.procs;
  }
}
