/** Lock ordering: no deadlock of any length, somebody can always move, and nobody moves forever. */
module Liveness {
  import opened Models
  import opened Requests
  import opened Ledger
  import opened Protocol
  import opened Invariants
  import opened Guarantees

  // ---------- Deadlock freedom ----------

  /** What a waiting request waits for, in the one global order: keys first, then rows by id. */
  function Level(w: World, r: Rid): int
    requires r in w.procs && WaitsFor(w, r).Some?
  {
    var p := w.procs[r];
    if p.phase.Claiming? then -1 else LockOrder(p.call.body)[|p.phase.rows|]
  }

  lemma WaitingClimbsHere(start: Db, w: World, r: Rid)
    requires Inv(start, w) && r in w.procs && WaitsFor(w, r).Some?
    ensures var s := WaitsFor(w, r).value;
            && s in w.procs && InTx(w.procs[s].phase)
            && (WaitsFor(w, s).Some? ==> Level(w, r) < Level(w, s))
  {
    var s := WaitsFor(w, r).value;
    assert ProcOk(w, r);
    assert s in w.procs;
    assert ProcOk(w, s);
  }

  lemma {:induction false} LevelsRise(start: Db, w: World, path: seq<Rid>)
    requires Inv(start, w) && |path| >= 2 && WaitPath(w, path)
    ensures WaitsFor(w, path[0]).Some?
    ensures WaitsFor(w, path[|path| - 1]).Some? ==> Level(w, path[0]) < Level(w, path[|path| - 1])
    decreases |path|
  {
    hide Inv, WaitsFor, Level;
    var n := |path|;
    assert WaitsFor(w, path[n - 2]) == Some(path[n - 1]);
    WaitingClimbsHere(start, w, path[n - 2]);
    if n > 2 {
      var shorter := path[..n - 1];
      assert forall i | 0 <= i < |shorter| :: shorter[i] == path[i];
      LevelsRise(start, w, shorter);
    }
  }

  lemma NoDeadlockHere(start: Db, w: World, r: Rid)
    requires Inv(start, w)
    ensures !Deadlocked(w, r)
  {
    if Deadlocked(w, r) {
      var path :| |path| >= 2 && WaitPath(w, path) && path[0] == path[|path| - 1] == r;
      LevelsRise(start, w, path);
    }
  }

  lemma VictimIsDeadlocked(w: World, r: Rid)
    ensures Enabled(w, DeadlockVictim(r)) ==> Deadlocked(w, r)
  {
  }

  /** In every reachable world, whoever is waited for is in a transaction, and if it waits too, it
      waits for something later in the order. */
  lemma WaitingClimbs(w0: World, acts: seq<Action>, w: World, r: Rid)
    requires Initial(w0) && Leads(w0, acts, w) && r in w.procs && WaitsFor(w, r).Some?
    ensures var s := WaitsFor(w, r).value;
            && s in w.procs && InTx(w.procs[s].phase)
            && (WaitsFor(w, s).Some? ==> Level(w, r) < Level(w, s))
  {
    RunInv(w0, acts, w);
    WaitingClimbsHere(w0.db, w, r);
  }

  /** No cycle of requests waiting for one another is reachable, whatever its length. */
  lemma NoDeadlock(w0: World, acts: seq<Action>, w: World, r: Rid)
    requires Initial(w0) && Leads(w0, acts, w)
    ensures !Deadlocked(w, r)
  {
    RunInv(w0, acts, w);
    NoDeadlockHere(w0.db, w, r);
  }

  /** So PostgreSQL's deadlock detector never has a victim to choose. */
  lemma DeadlockBranchIsDead(w0: World, acts: seq<Action>, w: World, r: Rid)
    requires Initial(w0) && Leads(w0, acts, w)
    ensures !Enabled(w, DeadlockVictim(r))
  {
    NoDeadlock(w0, acts, w, r);
    VictimIsDeadlocked(w, r);
  }

  // ---------- Progress ----------

  /** A step of the code itself, as opposed to something going wrong around it. */
  predicate Productive(a: Action) {
    !a.Arrive? && !a.TimeOut? && !a.DeadlockVictim? && !a.Fail? && !a.Crash? && !a.SkipRead?
  }

  ghost predicate Unused(w: World, t: Uuid, x: Uuid, y: Uuid) {
    {t, x, y} !! w.issued.Keys && t != x && t != y && x != y
  }

  /** The next step of a request that is not waiting. */
  ghost function NextStep(w: World, r: Rid, ts: int, t: Uuid, x: Uuid, y: Uuid): Action
    requires r in w.procs
  {
    var p := w.procs[r];
    var order := LockOrder(p.call.body);
    match p.phase
    case Received => Validate(r)
    case Reading => FastRead(r)
    case Missed => Begin(r, ts)
    case Claiming(_) => if p.call.key in w.db.keys then Duplicate(r) else Claim(r)
    case Holding(_, rows) =>
      if |rows| < |order| then (if order[|rows|] in w.db.accounts then LockRow(r) else MissRow(r))
      else if p.call.body.Transfer? then CheckFunds(r) else Flush(r, t, x, y)
    case Funded(_, _) => Flush(r, t, x, y)
    case Flushed(_, _) => Commit(r)
    case RaceLost => RereadWinner(r)
    case _ => Respond(r)
  }

  lemma NextStepEnabled(start: Db, w: World, r: Rid, ts: int, t: Uuid, x: Uuid, y: Uuid)
    requires Inv(start, w) && r in w.procs && !Over(w.procs[r].phase) && WaitsFor(w, r).None?
    requires Unused(w, t, x, y)
    ensures Enabled(w, NextStep(w, r, ts, t, x, y)) && Productive(NextStep(w, r, ts, t, x, y))
  {
    assert ProcOk(w, r);
  }

  lemma SomebodyCanMoveHere(start: Db, w: World, r: Rid, t: Uuid, x: Uuid, y: Uuid) returns (a: Action)
    requires Inv(start, w) && r in w.procs && !Over(w.procs[r].phase)
    requires Unused(w, t, x, y)
    ensures Enabled(w, a) && Productive(a)
    decreases UUID_SPACE - if WaitsFor(w, r).Some? then Level(w, r) else UUID_SPACE
  {
    if WaitsFor(w, r).Some? {
      WaitingClimbsHere(start, w, r);
      a := SomebodyCanMoveHere(start, w, WaitsFor(w, r).value, t, x, y);
    } else {
      a := NextStep(w, r, 0, t, x, y);
      NextStepEnabled(start, w, r, 0, t, x, y);
    }
  }

  /** While any request is unfinished, some request can take a step of its own, without a timeout. */
  lemma SomebodyCanMove(w0: World, acts: seq<Action>, w: World, r: Rid, t: Uuid, x: Uuid, y: Uuid) returns (a: Action)
    requires Initial(w0) && Leads(w0, acts, w) && r in w.procs && !Over(w.procs[r].phase)
    requires Unused(w, t, x, y)
    ensures Enabled(w, a) && Productive(a)
  {
    RunInv(w0, acts, w);
    a := SomebodyCanMoveHere(w0.db, w, r, t, x, y);
  }

  /** When nothing productive is left to do, every request has been answered or has died. */
  lemma StuckMeansDone(w0: World, acts: seq<Action>, w: World, t: Uuid, x: Uuid, y: Uuid)
    requires Initial(w0) && Leads(w0, acts, w) && Unused(w, t, x, y)
    requires forall a | Productive(a) :: !Enabled(w, a)
    ensures forall r | r in w.procs :: Over(w.procs[r].phase)
  {
    hide Inv, Enabled, Leads;
    RunInv(w0, acts, w);
    forall r | r in w.procs ensures Over(w.procs[r].phase) {
      if !Over(w.procs[r].phase) {
        var a := SomebodyCanMoveHere(w0.db, w, r, t, x, y);
      }
    }
  }

  // ---------- Bounded work ----------

  /** How many more steps a request can take. */
  function Budget(phase: Phase): nat {
    match phase
    case Received => 10
    case Reading => 9
    case Missed => 8
    case Claiming(_) => 7
    case Holding(_, rows) => if |rows| <= 2 then 6 - |rows| else 4
    case Funded(_, _) => 3
    case Flushed(_, _) => 2
    case RaceLost => 1
    case Committed(_) => 1
    case _ => 0
  }

  function StepsOf(acts: seq<Action>, r: Rid): nat {
    if acts == [] then 0
    else StepsOf(acts[..|acts| - 1], r) + if acts[|acts| - 1].r == r then 1 else 0
  }

  lemma StepsCostBudget(w: World, a: Action)
    requires Enabled(w, a)
    ensures Budget(Step(w, a).procs[a.r].phase) < if a.Arrive? then 11 else Budget(w.procs[a.r].phase)
  {
    hide Step, Enabled, Refuses, Advances, RefusalOf;
    if Refuses(w, a) {
      UnfinishedUntilRefused(w, a);
      RefusalStep(w, a);
    } else if Advances(w, a) {
      AdvanceCost(w, a);
      AdvanceStep(w, a);
    } else if GivesUp(w, a) {
      GivingUpIsUnfinished(w, a);
      GiveUpStep(w, a);
    } else {
      OtherStepsCostBudget(w, a);
    }
  }

  lemma AdvanceCost(w: World, a: Action)
    requires Enabled(w, a) && Advances(w, a)
    ensures !a.Arrive? && Budget(NextPhase(w, a)) < Budget(w.procs[a.r].phase)
  {
  }

  lemma GivingUpIsUnfinished(w: World, a: Action)
    requires Enabled(w, a) && GivesUp(w, a)
    ensures !Over(w.procs[a.r].phase) && Budget(LastPhase(a)) < Budget(w.procs[a.r].phase)
  {
    if a.DeadlockVictim? {
      VictimsWait(w, a.r);
    }
  }

  lemma UnfinishedUntilRefused(w: World, a: Action)
    requires Enabled(w, a) && Refuses(w, a)
    ensures !a.Arrive? && !Over(w.procs[a.r].phase)
  {
  }

  lemma OtherStepsCostBudget(w: World, a: Action)
    requires Enabled(w, a) && !Refuses(w, a) && !GivesUp(w, a) && !Advances(w, a)
    ensures Budget(Step(w, a).procs[a.r].phase) < if a.Arrive? then 11 else Budget(w.procs[a.r].phase)
  {
    hide TriggerAccepts, PassesChecks, FitsColumns, WritesOf, Publish, Deadlocked, Admitted;
  }

  /** No request takes more than eleven steps, counting its arrival, however it is scheduled. */
  lemma {:induction false} RequestsAreShort(w0: World, acts: seq<Action>, w: World, r: Rid)
    requires Initial(w0) && Leads(w0, acts, w)
    ensures StepsOf(acts, r) + (if r in w.procs then Budget(w.procs[r].phase) else 11) <= 11
    decreases |acts|
  {
    hide Leads, Step, Budget;
    if acts == [] {
      StandingStill(w0, w);
    } else {
      var before := LastStep(w0, acts, w);
      RequestsAreShort(w0, acts[..|acts| - 1], before, r);
      StepsCostBudget(before, acts[|acts| - 1]);
    }
  }

  // ---------- Every run ends ----------

  ghost function Budgets(w: World): map<Rid, int> {
    map r | r in w.procs :: Budget(w.procs[r].phase)
  }

  /** How many more steps the requests that have arrived can take between them. */
  ghost function WorkLeft(w: World): (n: nat) {
    TotalNonNegative(Budgets(w));
    Total<Rid>(Budgets(w))
  }

  lemma OneMore(procs: map<Rid, Proc>, procs': map<Rid, Proc>, r: Rid)
    requires procs'.Keys == procs.Keys + {r}
    ensures |procs'| == |procs| + (if r in procs then 0 else 1)
  {
    assert |procs'| == |procs'.Keys| && |procs| == |procs.Keys|;
    if r in procs {
      assert procs.Keys + {r} == procs.Keys;
    }
  }

  /** When one request alone moves, or arrives, the work left changes by its budget. */
  lemma WorkOfOne(w: World, w': World, r: Rid)
    requires w'.procs.Keys == w.procs.Keys + {r}
    requires forall s | s in w.procs && s != r :: w'.procs[s] == w.procs[s]
    ensures WorkLeft(w') == WorkLeft(w) + Budget(w'.procs[r].phase)
                            - (if r in w.procs then Budget(w.procs[r].phase) else 0)
  {
    hide Budget;
    var now := Budget(w'.procs[r].phase);
    forall s ensures s in Budgets(w') <==> s in Budgets(w)[r := now] {
      assert s in w'.procs.Keys <==> s in w.procs.Keys + {r};
    }
    assert Budgets(w') == Budgets(w)[r := now];
    TotalUpdate<Rid>(Budgets(w), r, now);
  }

  lemma StepsCostWork(w: World, a: Action)
    requires Enabled(w, a)
    ensures var w' := Step(w, a);
            && |w'.procs| == |w.procs| + (if a.Arrive? then 1 else 0)
            && WorkLeft(w') + 1 <= WorkLeft(w) + (if a.Arrive? then 11 else 0)
  {
    StepsCostBudget(w, a);
    ArrivalsAreNew(w, a);
    hide Step, Enabled, Budget, WorkLeft;
    OneMore(w.procs, Step(w, a).procs, a.r);
    WorkOfOne(w, Step(w, a), a.r);
  }

  lemma ArrivalsAreNew(w: World, a: Action)
    requires Enabled(w, a)
    ensures a.Arrive? <==> a.r !in w.procs
  {
  }

  /** A run is no longer than the work that was left, and eleven steps for each arrival. */
  lemma {:induction false} RunsAreShort(w: World, acts: seq<Action>, w': World)
    requires Leads(w, acts, w')
    ensures |w.procs| <= |w'.procs|
    ensures |acts| + WorkLeft(w') <= WorkLeft(w) + 11 * (|w'.procs| - |w.procs|)
    decreases |acts|
  {
    hide Leads, Enabled, Step, WorkLeft;
    if acts == [] {
      StandingStill(w, w');
    } else {
      var before := LastStep(w, acts, w');
      RunsAreShort(w, acts[..|acts| - 1], before);
      StepsCostWork(before, acts[|acts| - 1]);
    }
  }

  /** The length of every run is bounded by the number of requests that arrive, whatever goes wrong:
      nothing is retried without end. */
  lemma EveryRunIsShort(w0: World, acts: seq<Action>, w: World)
    requires Initial(w0) && Leads(w0, acts, w)
    ensures |acts| + WorkLeft(w) <= 11 * |w.procs|
  {
    RunsAreShort(w0, acts, w);
    assert Budgets(w0) == map[];
  }

  predicate MayDraw(phase: Phase) {
    !Over(phase) && !phase.Flushed? && !phase.Committed? && !phase.RaceLost?
  }

  ghost function YetToDraw(w: World): set<Rid> {
    set r | r in w.procs && MayDraw(w.procs[r].phase)
  }

  /** There are uuids left for every request that may need some. */
  ghost predicate UuidsLeft(w: World) {
    |w.issued| + 3 * |YetToDraw(w)| + 3 <= UUID_SPACE
  }

  lemma {:induction false} PigeonHole(n: nat, ids: set<int>)
    requires forall i | 0 <= i < n :: i in ids
    ensures n <= |ids|
  {
    if n > 0 {
      PigeonHole(n - 1, ids - {n - 1});
    }
  }

  lemma AnUnusedUuid(ids: set<Uuid>) returns (id: Uuid)
    requires |ids| < UUID_SPACE
    ensures id !in ids
  {
    if forall i | 0 <= i < UUID_SPACE :: i in ids {
      PigeonHole(UUID_SPACE, ids);
    }
    id :| id !in ids;
  }

  lemma ThreeUnusedUuids(w: World) returns (t: Uuid, x: Uuid, y: Uuid)
    requires |w.issued| + 3 <= UUID_SPACE
    ensures Unused(w, t, x, y)
  {
    var ids := w.issued.Keys;
    assert |ids| == |w.issued|;
    t := AnUnusedUuid(ids);
    x := AnUnusedUuid(ids + {t});
    y := AnUnusedUuid(ids + {t} + {x});
  }

  /** Only a flush draws uuids, three of them, and only once. */
  lemma StepDraws(w: World, a: Action)
    requires Enabled(w, a) && !a.Arrive?
    ensures if a.Flush?
            then MayDraw(w.procs[a.r].phase) && !MayDraw(Step(w, a).procs[a.r].phase)
                 && Step(w, a).issued == w.issued[a.resource := a.r][a.debit := a.r][a.credit := a.r]
            else Step(w, a).issued == w.issued
                 && (MayDraw(Step(w, a).procs[a.r].phase) ==> MayDraw(w.procs[a.r].phase))
  {
    hide Step, Enabled, Refuses, GivesUp, Advances, RefusalOf, NextPhase, LastPhase, MayDraw;
    ArrivalsAreNew(w, a);
    if a.Flush? {
      FlushDraws(w, a);
    } else if Refuses(w, a) {
      RefusalStep(w, a);
      RefusalDraws(w, a, RefusalOf(w, a));
    } else if GivesUp(w, a) {
      GiveUpStep(w, a);
      GivingUpDraws(w, a);
    } else if Advances(w, a) {
      AdvanceStep(w, a);
      AdvanceDraws(w, a);
    } else {
      OthersDraw(w, a);
    }
  }

  lemma RefusalDraws(w: World, a: Action, answer: Answer)
    requires a.r in w.procs && !a.Flush?
    ensures var w' := Refuse(AfterIssue(w, a), a.r, answer);
            w'.issued == w.issued && !MayDraw(w'.procs[a.r].phase)
  {
  }

  lemma GivingUpDraws(w: World, a: Action)
    requires Enabled(w, a) && GivesUp(w, a)
    ensures !MayDraw(LastPhase(a))
  {
  }

  lemma FlushDraws(w: World, a: Action)
    requires Enabled(w, a) && a.Flush?
    ensures MayDraw(w.procs[a.r].phase) && !MayDraw(Step(w, a).procs[a.r].phase)
    ensures Step(w, a).issued == w.issued[a.resource := a.r][a.debit := a.r][a.credit := a.r]
  {
    hide PassesChecks, FitsColumns, WritesOf;
  }

  lemma AdvanceDraws(w: World, a: Action)
    requires Enabled(w, a) && Advances(w, a)
    ensures MayDraw(NextPhase(w, a)) ==> MayDraw(w.procs[a.r].phase)
  {
  }

  lemma OthersDraw(w: World, a: Action)
    requires Enabled(w, a) && !Refuses(w, a) && !GivesUp(w, a) && !Advances(w, a) && !a.Flush? && !a.Arrive?
    ensures Step(w, a).issued == w.issued
    ensures MayDraw(Step(w, a).procs[a.r].phase) ==> MayDraw(w.procs[a.r].phase)
  {
    hide TriggerAccepts, PassesChecks, FitsColumns, WritesOf, Publish, Deadlocked;
  }

  lemma IssuingThree(m: map<Uuid, Rid>, t: Uuid, x: Uuid, y: Uuid, r: Rid)
    ensures |m[t := r][x := r][y := r]| <= |m| + 3
  {
    var m1 := m[t := r];
    var m2 := m1[x := r];
    assert m1.Keys == m.Keys + {t} && m2.Keys == m1.Keys + {x} && m2[y := r].Keys == m2.Keys + {y};
    assert |m1.Keys| <= |m.Keys| + 1 && |m2.Keys| <= |m1.Keys| + 1 && |m2[y := r].Keys| <= |m2.Keys| + 1;
    assert |m| == |m.Keys| && |m2[y := r]| == |m2[y := r].Keys|;
  }

  lemma UuidsStayLeft(w: World, a: Action)
    requires Enabled(w, a) && !a.Arrive? && a.r in w.procs && UuidsLeft(w)
    ensures UuidsLeft(Step(w, a))
  {
    hide Step, Enabled, MayDraw;
    StepDraws(w, a);
    var w' := Step(w, a);
    assert YetToDraw(w') <= YetToDraw(w);
    if a.Flush? {
      IssuingThree(w.issued, a.resource, a.debit, a.credit, a.r);
      assert a.r in YetToDraw(w) && a.r !in YetToDraw(w');
      SubsetIsSmaller(YetToDraw(w'), YetToDraw(w) - {a.r});
    } else {
      SubsetIsSmaller(YetToDraw(w'), YetToDraw(w));
    }
  }

  predicate AllProductive(acts: seq<Action>) {
    forall i | 0 <= i < |acts| :: Productive(acts[i])
  }

  /** Each request that was still open has been answered by what the ledger says, and nothing else has
      changed about the others. */
  ghost predicate Completed(w: World, w': World) {
    && w'.procs.Keys == w.procs.Keys
    && forall r | r in w.procs ::
         if Over(w.procs[r].phase) then w'.procs[r] == w.procs[r]
         else w'.procs[r].phase.Finished? && !Incidental(w'.procs[r].phase.answer)
  }

  lemma ProductiveStep(start: Db, w: World, r: Rid) returns (a: Action)
    requires Inv(start, w) && UuidsLeft(w) && r in w.procs && !Over(w.procs[r].phase)
    ensures Enabled(w, a) && Productive(a) && a.r in w.procs && !Over(w.procs[a.r].phase)
    ensures var phase := Step(w, a).procs[a.r].phase;
            Over(phase) ==> phase.Finished? && !Incidental(phase.answer)
  {
    hide Inv, Enabled, Step;
    var t, x, y := ThreeUnusedUuids(w);
    a := SomebodyCanMoveHere(start, w, r, t, x, y);
    ArrivalsAreNew(w, a);
    StepsCostBudget(w, a);
    BackstopsNeverFireHere(start, w, a, Step(w, a).procs[a.r].phase);
  }

  lemma {:induction false} CompleteHere(start: Db, w: World) returns (acts: seq<Action>, w': World)
    requires Inv(start, w) && UuidsLeft(w)
    ensures Leads(w, acts, w') && AllProductive(acts) && Completed(w, w')
    decreases WorkLeft(w)
  {
    hide Inv, Enabled, Step, Leads, Productive, UuidsLeft, WorkLeft;
    if r :| r in w.procs && !Over(w.procs[r].phase) {
      var a := ProductiveStep(start, w, r);
      var w1 := Step(w, a);
      StepKeepsInv(start, w, a);
      ArrivalsAreNew(w, a);
      UuidsStayLeft(w, a);
      StepsCostWork(w, a);
      var rest;
      rest, w' := CompleteHere(start, w1);
      OneStep(w, a);
      OneAfterTheOther(w, [a], w1, rest, w');
      acts := [a] + rest;
    } else {
      acts, w' := [], w;
      StandingStill(w, w);
    }
  }

  /** From every reachable world, the requests that have arrived can all be run to an answer of the
      ledger's by steps of their own alone: no timeout, no crash, no 500. By RunsAreShort, any way of
      running them ends. */
  lemma EveryRequestCanBeAnswered(w0: World, acts: seq<Action>, w: World) returns (more: seq<Action>, w': World)
    requires Initial(w0) && Leads(w0, acts, w)
    requires |w.issued| + 3 * |w.procs| + 3 <= UUID_SPACE
    ensures Leads(w, more, w') && AllProductive(more) && Completed(w, w')
    ensures |more| <= WorkLeft(w)
  {
    RunInv(w0, acts, w);
    SubsetIsSmaller(YetToDraw(w), w.procs.Keys);
    more, w' := CompleteHere(w0.db, w);
    RunsAreShort(w, more, w');
    assert |w.procs| == |w.procs.Keys| && |w'.procs| == |w'.procs.Keys|;
  }
}
