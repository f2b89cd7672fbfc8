/** A producer that fails its task after unanswered pushes, when one of the pushes did reach the queue. */
module Compensation {
  import opened Basics
  import opened TaskStore
  import opened TaskSystem
  import opened TaskInvariant
  import opened TaskRuns

  /**
   * Exactly when the compensating MarkFailed changes anything: an unanswered push did reach the queue, a worker
   * has claimed the task and still runs it, and the database does not break before the mark.
   */
  lemma FailsRunningTaskIff(cfg: Config, actions: seq<Action>, call: nat, message: string, db: Db)
    requires !cfg.leaky
    requires var s := Run(cfg, START, actions); call in s.producers && s.producers[call].Compensating?
    ensures var s := Run(cfg, START, actions);
            var id := s.producers[call].task.id;
            var after := Marked(s.store, id, MarkFailed(message), db);
            && id in s.store && s.tried[id] == MaxPushes(cfg) && s.pushed[id] == 0
            && (after != s.store <==> s.store[id].status == Running && db != BreaksBefore)
            && (s.store[id].status == Running ==> id in s.delivered)
            && (after != s.store ==> after == s.store[id := s.store[id].(status := Failed, errorMessage := message)])
  {
    hide Run, WorkerOk, UniqueRequests, HandedOk, Exclusive;
    StartInv(cfg);
    RunInv(cfg, START, actions);
    var s := Run(cfg, START, actions);
    assert ProducerOk(cfg, s, s.producers[call]) && TaskOk(cfg, s, s.producers[call].task.id);
  }

  const UNANSWERED := FINE.(accepted := false)

  /** Every push reaches the queue, and none is answered. */
  lemma {:induction false} PushedUnanswered(cfg: Config, s: System, t: Task, k: nat) returns (actions: seq<Action>)
    requires 0 in s.producers && s.producers[0] == Pushing(t, k) && 1 <= k <= MaxPushes(cfg)
    ensures var u := Run(cfg, s, actions);
            u.store == s.store && u.workers == s.workers && t.id in u.delivered && 0 in u.producers && u.producers[0] == Compensating(t)
    decreases MaxPushes(cfg) - k
  {
    hide Run, UNANSWERED, MaxPushes;
    var a := ProducerStep(0, UNANSWERED);
    var u := Step(cfg, s, a);
    PushUnanswered(cfg, s, t, k);
    if k == MaxPushes(cfg) {
      actions := [a] + [];
      RunCons(cfg, s, a, []);
      RunNothing(cfg, u);
    } else {
      var rest := PushedUnanswered(cfg, u, t, k + 1);
      actions := [a] + rest;
      RunCons(cfg, s, a, rest);
    }
  }

  lemma PushUnanswered(cfg: Config, s: System, t: Task, k: nat)
    requires 0 in s.producers && s.producers[0] == Pushing(t, k) && 1 <= k <= MaxPushes(cfg)
    ensures var u := Step(cfg, s, ProducerStep(0, UNANSWERED));
            && u.store == s.store && u.workers == s.workers && t.id in u.delivered && 0 in u.producers
            && u.producers[0] == if k == MaxPushes(cfg) then Compensating(t) else Pushing(t, k + 1)
  {
  }

  lemma ClaimWorks(cfg: Config, s: System, id: string)
    requires At(s, 0) == Claiming(id, 0) && id in s.store && s.store[id].status == Pending
    ensures Step(cfg, s, WorkerStep(0, FINE)) == WithMark(s, id, MarkRunning, Works).(workers := s.workers[0 := Executing(id)])
  {
    hide WithMark;
  }

  /** A worker takes the message of a pending task and claims it. */
  lemma ClaimsPending(cfg: Config, s: System, id: string)
    requires At(s, 0).Idle? && id in s.delivered && id in s.store && s.store[id].status == Pending
    ensures var u := Step(cfg, Step(cfg, s, Pop(0, id)), WorkerStep(0, FINE));
            u.producers == s.producers && id in u.store && u.store[id].status == Running && At(u, 0) == Executing(id)
  {
    hide Grown, StepWorker, FINE;
    ClaimWorks(cfg, Step(cfg, s, Pop(0, id)), id);
  }

  /** A run on which no push was answered, yet a worker runs the task while the producer is about to fail it. */
  lemma MeetsRunningTask(cfg: Config) returns (actions: seq<Action>)
    ensures var s := Run(cfg, START, actions);
            && 0 in s.producers && s.producers[0] == Compensating(THE_TASK)
            && "t" in s.store && s.store["t"].status == Running && At(s, 0) == Executing("t")
  {
    hide Run, Step, At, S1, P, FINE, THE_TASK, MaxPushes;
    PushingState(cfg);
    var pushes := PushedUnanswered(cfg, S2, THE_TASK, 1);
    var u := Run(cfg, S2, pushes);
    var last := [Pop(0, "t")] + ([WorkerStep(0, FINE)] + []);
    var rest := pushes + last;
    var r1 := [P] + rest;
    actions := [Submit(0, "r", "t")] + r1;
    RunCons(cfg, START, Submit(0, "r", "t"), r1); To1(cfg);
    RunCons(cfg, S1, P, rest); Named(); To2(cfg);
    RunAppends(cfg, S2, pushes, last);
    RunCons(cfg, u, Pop(0, "t"), [WorkerStep(0, FINE)] + []);
    RunCons(cfg, Step(cfg, u, Pop(0, "t")), WorkerStep(0, FINE), []);
    RunNothing(cfg, Step(cfg, Step(cfg, u, Pop(0, "t")), WorkerStep(0, FINE)));
    PendingThere(u);
    ClaimsPending(cfg, u, "t");
  }

  lemma PushingState(cfg: Config)
    ensures 0 in S2.producers && S2.producers[0] == Pushing(THE_TASK, 1) && THE_TASK.id == "t" && 1 <= MaxPushes(cfg)
  {
  }

  lemma PendingThere(s: System)
    requires s.store == S2.store && s.workers == S2.workers
    ensures At(s, 0).Idle? && "t" in s.store && s.store["t"].status == Pending
  {
  }
}
