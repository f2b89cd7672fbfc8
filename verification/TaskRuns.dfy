/** Theorems about whole runs of the task system, and the run that shows why a refusal must carry no task. */
module TaskRuns {
  import opened Basics
  import opened Text
  import opened TaskStore
  import opened TaskSystem
  import opened TaskInvariant

  /** Over every interleaving, redelivery, crash and ambiguous database answer. */
  lemma AtMostOnce(cfg: Config, actions: seq<Action>, id: string)
    requires !cfg.leaky
    ensures var s := Run(cfg, START, actions);
            s.finished[id] <= s.executed[id] <= 1
  {
    hide Run;
    StartInv(cfg);
    RunInv(cfg, START, actions);
    assert TaskOk(cfg, Run(cfg, START, actions), id);
  }

  /** Every stored task went through a prefix of Pending, Running and one end. */
  lemma HistoriesAreLifecycles(cfg: Config, actions: seq<Action>, id: string)
    requires !cfg.leaky
    ensures var s := Run(cfg, START, actions);
            id in s.store ==> id in s.history && Lifecycle(s.history[id]) && Last(s.history[id]) == s.store[id].status
  {
    hide Run, Lifecycle;
    StartInv(cfg);
    RunInv(cfg, START, actions);
    assert TaskOk(cfg, Run(cfg, START, actions), id);
  }

  lemma SettledStep(cfg: Config, s: System, a: Action, t: Task)
    requires Inv(cfg, s) && Settled(s, t)
    ensures Settled(Step(cfg, s, a), t)
  {
    hide TasksOk, WorkersOk, Exclusive, UniqueRequests, HandedOk, OneCallPerTask, CallOf, Advance, RequestTaken, MaxPushes;
    match a
    case ProducerStep(call, c) =>
      if call in s.producers {
        assert ProducerOk(cfg, s, s.producers[call]);
        if s.producers[call].Compensating? {
          SettledMark(s, t, s.producers[call].task.id, MarkFailed(c.text), c.db);
        }
      }
    case WorkerStep(w, c) =>
      var p := At(s, w);
      if !p.Idle? {
        var e := CallOf(cfg, s.store, p, c);
        if e.Marks? { SettledMark(s, t, e.id, e.mark, c.db); }
      }
    case _ =>
  }

  lemma SettledMark(s: System, t: Task, id: string, m: Mark, db: Db)
    requires Settled(s, t)
    ensures Settled(WithMark(s, id, m, db), t)
  {
  }

  lemma {:induction false} SettledForever(cfg: Config, s: System, more: seq<Action>, t: Task)
    requires !cfg.leaky && Inv(cfg, s) && Settled(s, t)
    ensures Settled(Run(cfg, s, more), t)
    decreases |more|
  {
    hide Inv, Step, Settled;
    if more != [] {
      SettledStep(cfg, s, more[0], t);
      StepInv(cfg, s, more[0]);
      SettledForever(cfg, Step(cfg, s, more[0]), more[1..], t);
    }
  }

  /** A task handed to onFinish is the stored one, and stays the stored one whatever happens later. */
  lemma {:induction false} HandedTasksAreFinal(cfg: Config, actions: seq<Action>, more: seq<Action>, t: Task)
    requires !cfg.leaky && t in Run(cfg, START, actions).handed
    ensures Terminal(t.status)
    ensures Settled(Run(cfg, Run(cfg, START, actions), more), t)
  {
    hide Run;
    StartInv(cfg);
    RunInv(cfg, START, actions);
    var s := Run(cfg, START, actions);
    assert Settled(s, t);
    SettledForever(cfg, s, more, t);
  }

  /** Submissions with one request id: one stored task, and every caller that succeeds learns its id. */
  lemma SameRequestSameTask(cfg: Config, actions: seq<Action>, c: nat, d: nat)
    requires !cfg.leaky
    requires var s := Run(cfg, START, actions);
             && c in s.producers && d in s.producers
             && s.producers[c].Returned? && s.producers[c].answer.Some?
             && s.producers[d].Returned? && s.producers[d].answer.Some?
             && s.producers[c].task.requestId == s.producers[d].task.requestId
    ensures var s := Run(cfg, START, actions);
            var id := s.producers[c].answer.value;
            && s.producers[d].answer == Some(id)
            && id in s.store && s.store[id].requestId == s.producers[c].task.requestId
            && forall other :: other in s.store && s.store[other].requestId == s.store[id].requestId ==> other == id
  {
    hide Run;
    StartInv(cfg);
    RunInv(cfg, START, actions);
    var s := Run(cfg, START, actions);
    assert ProducerOk(cfg, s, s.producers[c]) && ProducerOk(cfg, s, s.producers[d]);
  }

  /** Push is tried at most the configured number of times per task and succeeds at most once. */
  lemma PushesAreBounded(cfg: Config, actions: seq<Action>, id: string)
    requires !cfg.leaky
    ensures var s := Run(cfg, START, actions);
            s.tried[id] <= (if cfg.pushAttempts == 0 then 1 else cfg.pushAttempts) && s.pushed[id] <= 1
  {
    hide Run;
    StartInv(cfg);
    RunInv(cfg, START, actions);
    assert TaskOk(cfg, Run(cfg, START, actions), id);
  }

  /** After exhausted pushes the compensating MarkFailed is refused, unless some attempt did reach the queue. */
  lemma ExhaustedPushLeavesPending(cfg: Config, actions: seq<Action>, call: nat, message: string, db: Db)
    requires !cfg.leaky
    requires var s := Run(cfg, START, actions);
             call in s.producers && s.producers[call].Compensating? && s.producers[call].task.id !in s.delivered
    ensures var s := Run(cfg, START, actions);
            var id := s.producers[call].task.id;
            && s.tried[id] == MaxPushes(cfg) && s.pushed[id] == 0
            && id in s.store && s.store[id].status == Pending
            && Marked(s.store, id, MarkFailed(message), db) == s.store
  {
    hide Run;
    StartInv(cfg);
    RunInv(cfg, START, actions);
    CompensationIsRefused(cfg, Run(cfg, START, actions), call, message, db);
  }

  // ------------------------------------------- why nil on error is essential

  lemma RunCons(cfg: Config, s: System, a: Action, rest: seq<Action>)
    ensures Run(cfg, s, [a] + rest) == Run(cfg, Step(cfg, s, a), rest)
  {
  }

  lemma RunNothing(cfg: Config, s: System)
    ensures Run(cfg, s, []) == s
  {
  }

  lemma {:induction false} RunAppends(cfg: Config, s: System, first: seq<Action>, later: seq<Action>)
    ensures Run(cfg, Run(cfg, s, first), later) == Run(cfg, s, first + later)
    decreases |first|
  {
    hide Step;
    if first == [] {
      assert first + later == later;
    } else {
      assert first + later == [first[0]] + (first[1..] + later);
      RunCons(cfg, s, first[0], first[1..] + later);
      RunAppends(cfg, Step(cfg, s, first[0]), first[1..], later);
    }
  }

  const FINE := Choice(Works, true, true, true, true, true, "x", false)

  // A run of two workers on one message, delivered twice: the states S1, S2, ... after each action.

  const THE_TASK := Task("t", "r", Pending, "", "")
  const S1 := START.(issued := {"t"}, producers := map[0 := Creating(THE_TASK)])
  const S2 := S1.(store := map["t" := THE_TASK], history := map["t" := [Pending]], producers := map[0 := Pushing(THE_TASK, 1)])
  const S3 := S2.(tried := multiset{"t"}, pushed := multiset{"t"}, delivered := {"t"},
                  producers := map[0 := Returned(THE_TASK, Some("t"))])
  const S4 := S3.(workers := map[0 := Claiming("t", 0)])
  const S5 := S4.(store := map["t" := THE_TASK.(status := Running)], history := map["t" := [Pending] + [Running]],
                  workers := map[0 := Executing("t")])
  const S6 := S5.(executed := S5.executed + multiset{"t"}, workers := S5.workers[0 := Succeeding("t", "x", 0)])
  const S7 := S6.(workers := S6.workers[1 := Claiming("t", 0)])
  const S8 := S7.(workers := S7.workers[1 := Acking("t", true)])
  const S9 := S8.(workers := S8.workers[1 := Executing("t")])
  const S10 := S9.(executed := S9.executed + multiset{"t"}, workers := S9.workers[1 := Succeeding("t", "x", 0)])

  lemma Executes(cfg: Config, s: System, w: nat, id: string)
    requires At(s, w) == Executing(id)
    ensures Step(cfg, s, WorkerStep(w, FINE))
         == s.(executed := s.executed + multiset{id}, workers := s.workers[w := Succeeding(id, "x", 0)])
  {
  }

  /** The task-carrying refusal sends the worker on to execute. */
  lemma LeakyRefusal(cfg: Config, s: System, w: nat, id: string)
    requires cfg.leaky && At(s, w) == Claiming(id, 0) && id in s.store && s.store[id].status == Running
    ensures Step(cfg, s, WorkerStep(w, FINE)) == s.(workers := s.workers[w := Acking(id, true)])
  {
  }

  lemma AckThenExecute(cfg: Config, s: System, w: nat, id: string)
    requires At(s, w) == Acking(id, true)
    ensures Step(cfg, s, WorkerStep(w, FINE)) == s.(workers := s.workers[w := Executing(id)])
  {
  }

  lemma To1(cfg: Config)
    ensures Step(cfg, START, Submit(0, "r", "t")) == S1
  {
  }

  lemma To2(cfg: Config) ensures Step(cfg, S1, ProducerStep(0, FINE)) == S2 {}
  lemma To3(cfg: Config) ensures Step(cfg, S2, ProducerStep(0, FINE)) == S3 {}
  lemma To4(cfg: Config) ensures Step(cfg, S3, Pop(0, "t")) == S4 {}
  lemma To5(cfg: Config) ensures Step(cfg, S4, WorkerStep(0, FINE)) == S5 {}
  lemma To7(cfg: Config) ensures Step(cfg, S6, Pop(1, "t")) == S7 {}

  lemma WorkersAt()
    ensures At(S5, 0) == Executing("t") && At(S7, 1) == Claiming("t", 0) && At(S8, 1) == Acking("t", true)
    ensures At(S9, 1) == Executing("t") && "t" in S7.store && S7.store["t"].status == Running
    ensures S10.executed["t"] == 2
  {
  }

  const P := ProducerStep(0, FINE)
  const W0 := WorkerStep(0, FINE)
  const W1 := WorkerStep(1, FINE)

  /** With refusals that carry the task, a duplicate delivery is executed a second time. */
  lemma DuplicateExecution(cfg: Config) returns (actions: seq<Action>)
    requires cfg.leaky
    ensures Run(cfg, START, actions).executed["t"] == 2
  {
    hide Run, Step, S1, S2, S3, S4, S5, S6, S7, S8, S9, S10, P, W0, W1, FINE;
    var r9 := [W1] + [];
    var r8, r7 := [W1] + r9, [W1] + ([W1] + r9);
    var r6 := [Pop(1, "t")] + r7;
    var r5 := [W0] + r6;
    var r4 := [W0] + r5;
    var r3 := [Pop(0, "t")] + r4;
    var r2 := [P] + r3;
    var r1 := [P] + r2;
    actions := [Submit(0, "r", "t")] + r1;
    RunCons(cfg, START, Submit(0, "r", "t"), r1); To1(cfg);
    RunCons(cfg, S1, P, r2); RunCons(cfg, S2, P, r3); RunCons(cfg, S3, Pop(0, "t"), r4);
    RunCons(cfg, S4, W0, r5); RunCons(cfg, S5, W0, r6); RunCons(cfg, S6, Pop(1, "t"), r7);
    RunCons(cfg, S7, W1, r8); RunCons(cfg, S8, W1, r9); RunCons(cfg, S9, W1, []);
    Named();
    To2(cfg); To3(cfg); To4(cfg); To5(cfg); To7(cfg);
    WorkersAt();
    Executes(cfg, S5, 0, "t"); LeakyRefusal(cfg, S7, 1, "t"); AckThenExecute(cfg, S8, 1, "t"); Executes(cfg, S9, 1, "t");
    Chained();
    RunNothing(cfg, S10);
  }

  lemma Chained()
    ensures S6 == S5.(executed := S5.executed + multiset{"t"}, workers := S5.workers[0 := Succeeding("t", "x", 0)])
    ensures S8 == S7.(workers := S7.workers[1 := Acking("t", true)]) && S9 == S8.(workers := S8.workers[1 := Executing("t")])
    ensures S10 == S9.(executed := S9.executed + multiset{"t"}, workers := S9.workers[1 := Succeeding("t", "x", 0)])
  {
  }

  lemma Named()
    ensures P == ProducerStep(0, FINE) && W0 == WorkerStep(0, FINE) && W1 == WorkerStep(1, FINE)
  {
  }

  /** At-most-once execution holds on all runs exactly when the store returns nil with an error. */
  lemma AtMostOnceIffNilOnError(cfg: Config)
    ensures (forall actions, id :: Run(cfg, START, actions).executed[id] <= 1) <==> !cfg.leaky
  {
    hide Run;
    if cfg.leaky {
      var actions := DuplicateExecution(cfg);
      assert Run(cfg, START, actions).executed["t"] > 1;
    } else {
      forall actions, id ensures Run(cfg, START, actions).executed[id] <= 1 { AtMostOnce(cfg, actions, id); }
    }
  }
}
