/** Workers that give a message up because every claim was answered by an error, and the mark they leave behind. */
module LostClaims {
  import opened Basics
  import opened Text
  import opened TaskStore
  import opened TaskSystem
  import opened TaskInvariant
  import opened TaskRuns

  /** Some worker holds the claim on the task. */
  ghost predicate Held(s: System, id: string) { exists v :: Holds(At(s, v), id) }

  /** The task can no longer be claimed, and nobody holds its claim. */
  ghost predicate Abandoned(s: System, id: string) {
    id in s.store && s.store[id].status != Pending && !Held(s, id)
  }

  /** Only a claim that succeeds makes a worker a holder. */
  lemma AdvanceHolds(cfg: Config, s: System, w: nat, c: Choice, id: string)
    requires !cfg.leaky && WorkerOk(s, At(s, w)) && id in s.store && s.store[id].status != Pending
    requires !Holds(At(s, w), id)
    ensures !Holds(At(StepWorker(cfg, s, w, c), w), id)
  {
    hide Effect, Judge, Terminal;
    var p := At(s, w);
    if p.Claiming? && p.id == id { NoSecondClaim(cfg, s.store, id, c.db); }
  }

  lemma NoSecondClaim(cfg: Config, s: Store, id: string, db: Db)
    requires id in s && s[id].status != Pending
    ensures ReplyTo(cfg.leaky, s, id, MarkRunning, db).error.Some?
  {
  }

  lemma OthersStay(cfg: Config, s: System, w: nat, c: Choice, v: nat)
    requires v != w
    ensures At(StepWorker(cfg, s, w, c), v) == At(s, v)
  {
    hide CallOf, Advance, Grown, Marked;
  }

  lemma MarkElsewhere(s: System, i: string, m: Mark, db: Db, id: string)
    requires id in s.store && s.store[id].status != Pending
    ensures var t := WithMark(s, i, m, db);
            id in t.store && t.store[id].status != Pending && t == s.(store := t.store, history := t.history)
  {
    hide Grown;
    MarkFrame(s, i, m, db);
  }

  lemma EffectElsewhere(s: System, e: Event, db: Db, id: string)
    requires id in s.store && s.store[id].status != Pending && (e.Executed? ==> e.id != id)
    ensures var t := Effect(s, e, db);
            id in t.store && t.store[id].status != Pending && t.executed[id] == s.executed[id]
  {
    hide WithMark;
    if e.Marks? { MarkElsewhere(s, e.id, e.mark, db, id); }
  }

  lemma HoldersExecute(cfg: Config, s: Store, p: Worker, c: Choice, id: string)
    requires !p.Idle? && !Holds(p, id)
    ensures var e := CallOf(cfg, s, p, c); e.Executed? ==> e.id != id
  {
    hide ReplyTo;
  }

  /** What a worker's step does to the tasks it does not hold. */
  lemma UnheldTask(cfg: Config, s: System, w: nat, c: Choice, id: string)
    requires id in s.store && s.store[id].status != Pending && !Holds(At(s, w), id)
    ensures var t := StepWorker(cfg, s, w, c);
            id in t.store && t.store[id].status != Pending && t.executed[id] == s.executed[id]
  {
    hide CallOf, Advance, Effect, Holds;
    var p := At(s, w);
    if !p.Idle? {
      HoldersExecute(cfg, s.store, p, c, id);
      EffectElsewhere(s, CallOf(cfg, s.store, p, c), c.db, id);
    }
  }

  lemma ProducersElsewhere(cfg: Config, s: System, call: nat, c: Choice, id: string)
    requires id in s.store && s.store[id].status != Pending
    ensures var t := StepProducer(cfg, s, call, c);
            id in t.store && t.store[id].status != Pending && t.executed == s.executed && t.workers == s.workers
  {
    hide WithMark, RequestTaken, MaxPushes, FoundRequest;
    if call in s.producers && s.producers[call].Compensating? {
      MarkElsewhere(s, s.producers[call].task.id, MarkFailed(c.text), c.db, id);
    }
  }

  lemma AbandonedStep(cfg: Config, s: System, a: Action, id: string)
    requires !cfg.leaky && Inv(cfg, s) && Abandoned(s, id)
    ensures Abandoned(Step(cfg, s, a), id) && Step(cfg, s, a).executed[id] == s.executed[id]
  {
    hide Holds, StepWorker, StepProducer, TasksOk, Exclusive, UniqueRequests, HandedOk, ProducersOk, OneCallPerTask, WorkerOk;
    var t := Step(cfg, s, a);
    match a
    case WorkerStep(w, c) =>
      assert WorkerOk(s, At(s, w));
      UnheldTask(cfg, s, w, c, id);
      forall v ensures !Holds(At(t, v), id) {
        if v == w { AdvanceHolds(cfg, s, w, c, id); } else { OthersStay(cfg, s, w, c, v); }
      }
    case Pop(w, i) => NotAHolder(i, id); assert forall v :: At(t, v) == At(s, v) || At(t, v) == Claiming(i, 0);
    case WorkerDies(w) => NotAHolder(id, id); assert forall v :: At(t, v) == At(s, v) || At(t, v) == Idle;
    case ProducerStep(call, c) =>
      ProducersElsewhere(cfg, s, call, c, id);
      assert forall v :: At(t, v) == At(s, v);
    case Submit(_, _, _) => assert forall v :: At(t, v) == At(s, v);
  }

  lemma NotAHolder(i: string, id: string)
    ensures !Holds(Claiming(i, 0), id) && !Holds(Idle, id)
  {
  }

  lemma {:induction false} AbandonedForever(cfg: Config, s: System, more: seq<Action>, id: string)
    requires !cfg.leaky && Inv(cfg, s) && Abandoned(s, id)
    ensures Run(cfg, s, more).executed[id] == s.executed[id]
    decreases |more|
  {
    hide Inv, Step, Abandoned;
    if more != [] {
      AbandonedStep(cfg, s, more[0], id);
      StepInv(cfg, s, more[0]);
      AbandonedForever(cfg, Step(cfg, s, more[0]), more[1..], id);
    }
  }

  /** The state after a worker's failing mark. */
  lemma LostMark(cfg: Config, s: System, w: nat, c: Choice)
    requires At(s, w).ClaimLost?
    ensures var t, id := Step(cfg, s, WorkerStep(w, c)), At(s, w).id;
            && t.store == Marked(s.store, id, MarkFailed(c.text), c.db) && t.executed == s.executed
            && At(t, w) == Acking(id, false) && (forall v :: v != w ==> At(t, v) == At(s, v))
  {
    hide Grown, Marked;
  }

  /**
   * On every run, the mark of a worker whose claims were all answered by errors changes the store if and only if
   * the task is Running and the database does not break before the mark; the task is then Failed for good,
   * whoever executes it; and if nobody held it, it is not executed any more.
   */
  lemma LostClaimFailsIff(cfg: Config, actions: seq<Action>, w: nat, c: Choice, more: seq<Action>)
    requires !cfg.leaky && At(Run(cfg, START, actions), w).ClaimLost?
    ensures var s := Run(cfg, START, actions);
            var t, id := Step(cfg, s, WorkerStep(w, c)), At(s, w).id;
            && id in s.store
            && (t.store != s.store <==> s.store[id].status == Running && c.db != BreaksBefore)
            && (t.store != s.store ==>
                 var failed := s.store[id].(status := Failed, errorMessage := c.text);
                 && t.store == s.store[id := failed] && Settled(Run(cfg, t, more), failed)
                 && (!Held(s, id) ==> Run(cfg, t, more).executed[id] == s.executed[id]))
  {
    hide Run, Step, Inv, Exclusive, UniqueRequests, HandedOk, ProducersOk, OneCallPerTask, Lifecycle, Last, Holds, Held;
    StartInv(cfg);
    RunInv(cfg, START, actions);
    var s := Run(cfg, START, actions);
    var t, id := Step(cfg, s, WorkerStep(w, c)), At(s, w).id;
    LostMark(cfg, s, w, c);
    Delivered(cfg, s, w);
    StepInv(cfg, s, WorkerStep(w, c));
    if t.store != s.store {
      var failed := s.store[id].(status := Failed, errorMessage := c.text);
      SettledForever(cfg, t, more, failed);
      if !Held(s, id) {
        StaysUnheld(s, t, w, id);
        AbandonedForever(cfg, t, more, id);
      }
    }
  }

  lemma Delivered(cfg: Config, s: System, w: nat)
    requires Inv(cfg, s) && !At(s, w).Idle?
    ensures var id := At(s, w).id; id in s.store && s.store[id].id == id
  {
    assert WorkerOk(s, At(s, w));
    assert TaskOk(cfg, s, At(s, w).id);
  }

  lemma StaysUnheld(s: System, t: System, w: nat, id: string)
    requires !Held(s, id) && At(t, w) == Acking(id, false) && forall v :: v != w ==> At(t, v) == At(s, v)
    ensures !Held(t, id)
  {
  }

  /** On every run, when a worker that holds a task dies, the task is not executed again on any continuation, whoever gets its message. */
  lemma DeathAbandonsTask(cfg: Config, actions: seq<Action>, w: nat, id: string, more: seq<Action>)
    requires !cfg.leaky && Holds(At(Run(cfg, START, actions), w), id)
    ensures var s := Run(cfg, START, actions);
            var t := Step(cfg, s, WorkerDies(w));
            && At(t, w) == Idle && id in t.store && t.store[id].status != Pending
            && Run(cfg, t, more).executed[id] == s.executed[id]
  {
    hide Run, Inv, TasksOk, UniqueRequests, HandedOk, ProducersOk, OneCallPerTask, Lifecycle, Last;
    StartInv(cfg);
    RunInv(cfg, START, actions);
    var s := Run(cfg, START, actions);
    var t := Step(cfg, s, WorkerDies(w));
    OnlyHolder(cfg, s, w, id);
    StepInv(cfg, s, WorkerDies(w));
    assert forall v :: At(t, v) == if v == w then Idle else At(s, v);
    AbandonedForever(cfg, t, more, id);
  }

  lemma OnlyHolder(cfg: Config, s: System, w: nat, id: string)
    requires Inv(cfg, s) && Holds(At(s, w), id)
    ensures id in s.store && s.store[id].status != Pending && forall v :: v != w ==> !Holds(At(s, v), id)
  {
    assert WorkerOk(s, At(s, w));
  }

  // -------------------------------------------- what fails an unexecuted task

  /** A worker that reports a failed publication does so about a terminal task. */
  ghost predicate Reported(s: System) {
    forall w :: At(s, w).Reporting? ==> At(s, w).id in s.store && Terminal(s.store[At(s, w).id].status)
  }

  lemma ReportedStep(cfg: Config, s: System, a: Action)
    requires Inv(cfg, s) && Reported(s)
    ensures Reported(Step(cfg, s, a))
  {
    hide Step, Exclusive, UniqueRequests, HandedOk, ProducersOk, OneCallPerTask, Lifecycle, Last, Holds;
    var t := Step(cfg, s, a);
    forall w | At(t, w).Reporting? ensures At(t, w).id in t.store && Terminal(t.store[At(t, w).id].status) {
      var id := At(t, w).id;
      NewReport(cfg, s, a, w);
      assert TaskOk(cfg, s, id) && WorkerOk(s, At(s, w));
      SettledStep(cfg, s, a, s.store[id]);
    }
  }

  /** A worker comes to report from handing its task over. */
  lemma NewReport(cfg: Config, s: System, a: Action, w: nat)
    requires At(Step(cfg, s, a), w).Reporting?
    ensures At(s, w) == At(Step(cfg, s, a), w) || (At(s, w).Finishing? && At(s, w).done.id == At(Step(cfg, s, a), w).id)
  {
    hide StepProducer, StepWorker;
    match a
    case ProducerStep(call, c) => ProducerFrame(cfg, s, call, c);
    case WorkerStep(v, c) =>
      if v == w { BeginsReport(cfg, s, w, c); } else { OthersStay(cfg, s, v, c, w); }
    case _ =>
  }

  lemma BeginsReport(cfg: Config, s: System, w: nat, c: Choice)
    requires At(StepWorker(cfg, s, w, c), w).Reporting?
    ensures At(s, w) == At(StepWorker(cfg, s, w, c), w) || (At(s, w).Finishing? && At(s, w).done.id == At(StepWorker(cfg, s, w, c), w).id)
  {
    hide Effect, ReplyTo;
  }

  lemma {:induction false} RunReported(cfg: Config, s: System, actions: seq<Action>)
    requires !cfg.leaky && Inv(cfg, s) && Reported(s)
    ensures Reported(Run(cfg, s, actions))
    decreases |actions|
  {
    hide Inv, Reported, Step;
    if actions != [] {
      ReportedStep(cfg, s, actions[0]);
      StepInv(cfg, s, actions[0]);
      RunReported(cfg, Step(cfg, s, actions[0]), actions[1..]);
    }
  }

  lemma FailingWorker(cfg: Config, s: System, w: nat, c: Choice, id: string)
    requires WorkerOk(s, At(s, w)) && id in s.store && s.store[id].status != Failed && s.executed[id] == 0
    requires At(s, w).Reporting? ==> At(s, w).id in s.store && Terminal(s.store[At(s, w).id].status)
    requires var t := StepWorker(cfg, s, w, c); id in t.store && t.store[id].status == Failed
    ensures At(s, w) == ClaimLost(id)
  {
    hide Advance, ReplyTo, Grown;
  }

  lemma FailingProducer(cfg: Config, s: System, call: nat, c: Choice, id: string)
    requires call in s.producers && ProducerOk(cfg, s, s.producers[call]) && id in s.store && s.store[id].status != Failed
    requires var t := StepProducer(cfg, s, call, c); id in t.store && t.store[id].status == Failed
    ensures s.producers[call].Compensating? && s.producers[call].task.id == id
  {
    hide Grown, RequestTaken;
  }

  /** On every run, a step that fails a task never executed is the mark of a lost claim or the compensating mark. */
  lemma UnexecutedFailures(cfg: Config, actions: seq<Action>, a: Action, id: string)
    requires !cfg.leaky
    requires var s := Run(cfg, START, actions);
             && id in s.store && s.store[id].status != Failed && s.executed[id] == 0
             && id in Step(cfg, s, a).store && Step(cfg, s, a).store[id].status == Failed
    ensures var s := Run(cfg, START, actions);
            || (a.WorkerStep? && At(s, a.worker) == ClaimLost(id))
            || (a.ProducerStep? && a.call in s.producers && s.producers[a.call].Compensating? && s.producers[a.call].task.id == id)
  {
    hide Run, Exclusive, UniqueRequests, HandedOk, OneCallPerTask, TasksOk, StepWorker, StepProducer, WorkerOk, ProducerOk;
    StartInv(cfg);
    RunInv(cfg, START, actions);
    RunReported(cfg, START, actions);
    var s := Run(cfg, START, actions);
    match a
    case WorkerStep(w, c) =>
      assert WorkerOk(s, At(s, w));
      FailingWorker(cfg, s, w, c, id);
    case ProducerStep(call, c) =>
      IdleCall(cfg, s, call, c);
      FailingProducer(cfg, s, call, c, id);
    case _ =>
  }

  lemma IdleCall(cfg: Config, s: System, call: nat, c: Choice)
    ensures call !in s.producers ==> StepProducer(cfg, s, call, c) == s
  {
  }

  // -------------------------------------------------------------------- runs

  const BROKEN := FINE.(db := BreaksBefore)

  /** A claim answered by an error. */
  lemma ClaimBreaks(cfg: Config, s: System, w: nat, id: string, k: nat)
    requires At(s, w) == Claiming(id, k)
    ensures Step(cfg, s, WorkerStep(w, BROKEN))
         == s.(workers := s.workers[w := if k == 0 then Claiming(id, 1) else if k >= cfg.attempts then ClaimLost(id) else ClaimPause(id, k)])
  {
  }

  lemma PauseEnds(cfg: Config, s: System, w: nat, id: string, k: nat)
    requires At(s, w) == ClaimPause(id, k)
    ensures Step(cfg, s, WorkerStep(w, BROKEN)) == s.(workers := s.workers[w := Claiming(id, k + 1)])
  {
  }

  /** Every claim of the retry loop is answered by an error; nothing else happens. */
  lemma {:induction false} ClaimsBreak(cfg: Config, s: System, w: nat, id: string, k: nat) returns (actions: seq<Action>)
    requires At(s, w) == Claiming(id, k) && k >= 1
    ensures Run(cfg, s, actions) == s.(workers := s.workers[w := ClaimLost(id)])
    decreases if k >= cfg.attempts then 0 else cfg.attempts - k
  {
    hide Run, Step, BROKEN;
    var a := WorkerStep(w, BROKEN);
    var u := Step(cfg, s, a);
    ClaimBreaks(cfg, s, w, id, k);
    if k >= cfg.attempts {
      actions := [a] + [];
      RunCons(cfg, s, a, []);
      RunNothing(cfg, u);
    } else {
      var v := Step(cfg, u, a);
      PauseEnds(cfg, u, w, id, k);
      var rest := ClaimsBreak(cfg, v, w, id, k + 1);
      actions := [a] + ([a] + rest);
      RunCons(cfg, s, a, [a] + rest);
      RunCons(cfg, u, a, rest);
      assert v.(workers := v.workers[w := ClaimLost(id)]) == s.(workers := s.workers[w := ClaimLost(id)]);
    }
  }

  /** One worker has taken the only message. */
  lemma TakenMessage(cfg: Config) returns (actions: seq<Action>)
    ensures Run(cfg, START, actions) == S4
  {
    hide Run, Step, S1, S2, S3, S4, P, FINE;
    var r3 := [Pop(0, "t")] + [];
    var r1 := [P] + ([P] + r3);
    actions := [Submit(0, "r", "t")] + r1;
    RunCons(cfg, START, Submit(0, "r", "t"), r1); To1(cfg);
    RunCons(cfg, S1, P, [P] + r3); RunCons(cfg, S2, P, r3); RunCons(cfg, S3, Pop(0, "t"), []);
    Named();
    To2(cfg); To3(cfg); To4(cfg);
    RunNothing(cfg, S4);
  }

  /** A worker takes the message of a task, and each of its claims is answered by an error. */
  lemma LosesClaim(cfg: Config, s: System, w: nat, id: string) returns (actions: seq<Action>)
    requires At(s, w).Idle? && id in s.delivered
    ensures Run(cfg, s, actions) == s.(workers := s.workers[w := ClaimLost(id)])
  {
    hide Run, Step, BROKEN, CallOf, Advance;
    var u := s.(workers := s.workers[w := Claiming(id, 0)]);
    Pops(cfg, s, w, id);
    ClaimBreaks(cfg, u, w, id, 0);
    var v := Step(cfg, u, WorkerStep(w, BROKEN));
    var rest := ClaimsBreak(cfg, v, w, id, 1);
    actions := [Pop(w, id)] + ([WorkerStep(w, BROKEN)] + rest);
    RunCons(cfg, s, Pop(w, id), [WorkerStep(w, BROKEN)] + rest);
    RunCons(cfg, u, WorkerStep(w, BROKEN), rest);
    assert v.(workers := v.workers[w := ClaimLost(id)]) == s.(workers := s.workers[w := ClaimLost(id)]);
  }

  lemma Pops(cfg: Config, s: System, w: nat, id: string)
    requires At(s, w).Idle? && id in s.delivered
    ensures Step(cfg, s, Pop(w, id)) == s.(workers := s.workers[w := Claiming(id, 0)])
  {
  }

  /** For every number of attempts, a run that ends so: a worker executes the task, and another is about to mark it failed. */
  lemma AnotherExecutes(cfg: Config) returns (actions: seq<Action>)
    ensures var s := Run(cfg, START, actions);
            && At(s, 0) == Executing("t") && At(s, 1) == ClaimLost("t")
            && "t" in s.store && s.store["t"].status == Running
  {
    hide Run, Step, W0, FINE;
    var first := TakenMessage(cfg);
    var lost := LosesClaim(cfg, S5, 1, "t");
    actions := first + ([W0] + lost);
    RunAppends(cfg, START, first, [W0] + lost);
    Named();
    RunCons(cfg, S4, W0, lost);
    To5(cfg);
  }

  /** The claim is stored and its answer lost. */
  lemma ClaimUnanswered(cfg: Config)
    ensures Step(cfg, S4, WorkerStep(0, FINE.(db := BreaksAfter))) == S5.(workers := map[0 := Claiming("t", 1)])
  {
  }

  /**
   * For every number of attempts, a run that ends so: the only worker's claim was stored, its answer lost, and
   * nobody holds the running task, which that worker is about to mark failed without an execution.
   */
  lemma OwnClaimIsLost(cfg: Config) returns (actions: seq<Action>)
    ensures var s := Run(cfg, START, actions);
            && At(s, 0) == ClaimLost("t") && "t" in s.store && s.store["t"].status == Running
            && s.executed["t"] == 0 && !Held(s, "t")
  {
    hide Run, Step, FINE;
    var first := TakenMessage(cfg);
    var u := S5.(workers := map[0 := Claiming("t", 1)]);
    var a := WorkerStep(0, FINE.(db := BreaksAfter));
    ClaimUnanswered(cfg);
    var lost := ClaimsBreak(cfg, u, 0, "t", 1);
    actions := first + ([a] + lost);
    RunAppends(cfg, START, first, [a] + lost);
    RunCons(cfg, S4, a, lost);
  }
}
