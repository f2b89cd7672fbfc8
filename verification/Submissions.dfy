/** What an answered submission is worth: whether the task it names is, or can still be, in the queue. */
module Submissions {
  import opened Basics
  import opened Text
  import opened TaskStore
  import opened TaskSystem
  import opened TaskInvariant
  import opened TaskRuns

  /** The call that created the task still pushes it. */
  ghost predicate InPush(s: System, id: string) {
    exists call :: call in s.producers && s.producers[call].Pushing? && s.producers[call].task.id == id
  }

  /** A stored task that never entered the queue, and that nobody pushes. */
  ghost predicate Stranded(s: System, id: string) {
    id in s.store && id !in s.delivered && !InPush(s, id)
  }

  lemma MarkKeepsStored(s: System, i: string, m: Mark, db: Db, id: string)
    requires id in s.store
    ensures id in WithMark(s, i, m, db).store
  {
    hide Judge, Grown;
  }

  lemma StoredStays(cfg: Config, s: System, a: Action, id: string)
    requires id in s.store
    ensures id in Step(cfg, s, a).store
  {
    hide WithMark, CallOf, Advance, RequestTaken, MaxPushes, FoundRequest;
    match a
    case ProducerStep(call, c) =>
      if call in s.producers { MarkKeepsStored(s, s.producers[call].task.id, MarkFailed(c.text), c.db, id); }
    case WorkerStep(w, c) =>
      if !At(s, w).Idle? {
        var e := CallOf(cfg, s.store, At(s, w), c);
        if e.Marks? { MarkKeepsStored(s, e.id, e.mark, c.db, id); }
      }
    case _ =>
  }

  /** Only a push of the task delivers it. */
  lemma DeliveredBy(cfg: Config, s: System, a: Action, id: string)
    requires id in Step(cfg, s, a).delivered && id !in s.delivered
    ensures InPush(s, id)
  {
    hide StepWorker, WithMark, RequestTaken, MaxPushes, FoundRequest;
    assert a.ProducerStep? && a.call in s.producers && s.producers[a.call].Pushing? by { OnlyPushes(cfg, s, a); }
  }

  lemma OnlyPushes(cfg: Config, s: System, a: Action)
    ensures Step(cfg, s, a).delivered == s.delivered || (a.ProducerStep? && a.call in s.producers && s.producers[a.call].Pushing?)
  {
    hide StepWorker, WithMark, RequestTaken, MaxPushes, FoundRequest;
    match a
    case WorkerStep(w, c) => WorkersOnly(cfg, s, w, c);
    case ProducerStep(call, c) =>
      if call in s.producers { MarkFrame(s, s.producers[call].task.id, MarkFailed(c.text), c.db); }
    case _ =>
  }

  lemma OtherCalls(cfg: Config, s: System, d: nat, c: Choice, call: nat)
    requires call != d
    ensures var t := StepProducer(cfg, s, d, c);
            (call in t.producers <==> call in s.producers) && (call in s.producers ==> t.producers[call] == s.producers[call])
  {
    hide WithMark, RequestTaken, MaxPushes, FoundRequest;
    if d in s.producers {
      MarkFrame(s, s.producers[d].task.id, MarkFailed(c.text), c.db);
      match s.producers[d]
      case Creating(_) =>
      case LookingUp(_) =>
      case Pushing(_, _) =>
      case Compensating(_) =>
      case Returned(_, _) =>
    }
  }

  /** A call pushes only the task that it has just inserted or pushed before. */
  lemma StartsNoPush(cfg: Config, s: System, d: nat, c: Choice)
    requires d in s.producers && !s.producers[d].Pushing?
    requires !s.producers[d].Creating? || s.producers[d].task.id in s.store
    ensures var t := StepProducer(cfg, s, d, c); d in t.producers && !t.producers[d].Pushing?
  {
    hide WithMark, RequestTaken, MaxPushes, FoundRequest;
  }

  lemma SameTask(cfg: Config, s: System, d: nat, c: Choice)
    requires d in s.producers
    ensures var t := StepProducer(cfg, s, d, c); d in t.producers && t.producers[d].task == s.producers[d].task
  {
    hide WithMark, RequestTaken, MaxPushes, FoundRequest;
    match s.producers[d]
    case Creating(_) =>
    case LookingUp(_) =>
    case Pushing(_, _) =>
    case Compensating(_) =>
    case Returned(_, _) =>
  }

  /** Pushing begins with the insert, so a stored task that nobody pushes stays unpushed. */
  lemma PushBegins(cfg: Config, s: System, a: Action, id: string)
    requires id in s.store && !InPush(s, id)
    ensures !InPush(Step(cfg, s, a), id)
  {
    hide StepWorker, StepProducer;
    var t := Step(cfg, s, a);
    forall call | call in t.producers && t.producers[call].Pushing? ensures t.producers[call].task.id != id {
      match a
      case ProducerStep(d, c) =>
        if call != d { OtherCalls(cfg, s, d, c, call); }
        else if d in s.producers {
          SameTask(cfg, s, d, c);
          if s.producers[d].task.id == id { StartsNoPush(cfg, s, d, c); }
        } else { NoCall(cfg, s, d, c); }
      case WorkerStep(w, c) => WorkersOnly(cfg, s, w, c);
      case _ =>
    }
  }

  lemma NoCall(cfg: Config, s: System, d: nat, c: Choice)
    ensures d !in s.producers ==> StepProducer(cfg, s, d, c) == s
  {
  }

  lemma WorkersOnly(cfg: Config, s: System, w: nat, c: Choice)
    ensures StepWorker(cfg, s, w, c).producers == s.producers && StepWorker(cfg, s, w, c).delivered == s.delivered
  {
    hide CallOf, Advance, Marked, Grown;
  }

  lemma {:induction false} StrandedForever(cfg: Config, s: System, more: seq<Action>, id: string)
    requires !cfg.leaky && Inv(cfg, s) && Stranded(s, id)
    ensures Stranded(Run(cfg, s, more), id)
    decreases |more|
  {
    hide Inv, Step, InPush;
    if more != [] {
      var t := Step(cfg, s, more[0]);
      StoredStays(cfg, s, more[0], id);
      PushBegins(cfg, s, more[0], id);
      if id in t.delivered { DeliveredBy(cfg, s, more[0], id); }
      StepInv(cfg, s, more[0]);
      StrandedForever(cfg, t, more[1..], id);
    }
  }

  /** A task in push enters the queue when its push is accepted. */
  lemma PushDelivers(cfg: Config, s: System, call: nat)
    requires call in s.producers && s.producers[call].Pushing?
    ensures s.producers[call].task.id in Run(cfg, s, [ProducerStep(call, FINE)] + []).delivered
  {
    RunCons(cfg, s, ProducerStep(call, FINE), []);
    RunNothing(cfg, Step(cfg, s, ProducerStep(call, FINE)));
  }

  /**
   * In every reachable state: a stored task is or will be in the queue on some continuation if and only if it was
   * delivered already or its call still pushes it; if not, it stays Pending and unexecuted on all continuations.
   */
  lemma ReachesQueueIff(cfg: Config, actions: seq<Action>, id: string)
    requires !cfg.leaky && id in Run(cfg, START, actions).store
    ensures var s := Run(cfg, START, actions);
            && ((exists more: seq<Action> :: id in Run(cfg, s, more).delivered) <==> id in s.delivered || InPush(s, id))
            && (id !in s.delivered && !InPush(s, id) ==>
                 forall more: seq<Action> :: var t := Run(cfg, s, more);
                   id in t.store && t.store[id].status == Pending && t.executed[id] == 0)
  {
    hide Run, Inv, InPush, TaskOk;
    StartInv(cfg);
    RunInv(cfg, START, actions);
    var s := Run(cfg, START, actions);
    if id in s.delivered {
      RunNothing(cfg, s);
      assert id in Run(cfg, s, []).delivered;
    } else if InPush(s, id) {
      var call := PusherOf(s, id);
      PushDelivers(cfg, s, call);
    } else {
      forall more: seq<Action>
        ensures var t := Run(cfg, s, more);
                id !in t.delivered && id in t.store && t.store[id].status == Pending && t.executed[id] == 0
      {
        StrandedForever(cfg, s, more, id);
        RunInv(cfg, s, more);
        StillPending(cfg, Run(cfg, s, more), id);
      }
    }
  }

  lemma PusherOf(s: System, id: string) returns (call: nat)
    requires InPush(s, id)
    ensures call in s.producers && s.producers[call].Pushing? && s.producers[call].task.id == id
  {
    call :| call in s.producers && s.producers[call].Pushing? && s.producers[call].task.id == id;
  }

  lemma StillPending(cfg: Config, s: System, id: string)
    requires Inv(cfg, s) && id in s.store && id !in s.delivered
    ensures s.store[id].status == Pending && s.executed[id] == 0
  {
    assert TaskOk(cfg, s, id);
  }

  /**
   * On every run a successful answer names a stored task. The caller's own task was delivered; another caller's is
   * or will be in the queue on some continuation if and only if it was delivered or that caller still pushes it.
   */
  lemma AnsweredTaskIsQueuedIff(cfg: Config, actions: seq<Action>, call: nat)
    requires !cfg.leaky
    requires var s := Run(cfg, START, actions); call in s.producers && s.producers[call].Returned? && s.producers[call].answer.Some?
    ensures var s := Run(cfg, START, actions);
            var id := s.producers[call].answer.value;
            && id in s.store && s.store[id].requestId == s.producers[call].task.requestId
            && (id == s.producers[call].task.id ==> id in s.delivered)
            && ((exists more: seq<Action> :: id in Run(cfg, s, more).delivered) <==> id in s.delivered || InPush(s, id))
  {
    hide Run, InPush, TaskOk, WorkerOk, Inv;
    StartInv(cfg);
    RunInv(cfg, START, actions);
    CallIsOk(cfg, Run(cfg, START, actions), call);
    ReachesQueueIff(cfg, actions, Run(cfg, START, actions).producers[call].answer.value);
  }

  lemma CallIsOk(cfg: Config, s: System, call: nat)
    requires Inv(cfg, s) && call in s.producers
    ensures ProducerOk(cfg, s, s.producers[call])
  {
  }

  /**
   * On every run the insert of a call stores its task if and only if no stored task has its request id and the
   * database does not break before; the call then pushes it, unless the answer is lost, and otherwise looks it up.
   */
  lemma InsertStoresIff(cfg: Config, actions: seq<Action>, call: nat, c: Choice)
    requires !cfg.leaky
    requires var s := Run(cfg, START, actions); call in s.producers && s.producers[call].Creating?
    ensures var s := Run(cfg, START, actions);
            var t, u := s.producers[call].task, Step(cfg, s, ProducerStep(call, c));
            var taken := exists id :: id in s.store && s.store[id].requestId == t.requestId;
            && t.id !in s.store && call in u.producers
            && u.store == (if !taken && c.db != BreaksBefore then s.store[t.id := t] else s.store)
            && u.producers[call] == if c.db == BreaksBefore then Returned(t, None) else if taken then LookingUp(t)
                                    else if c.db == Works then Pushing(t, 1) else Returned(t, None)
  {
    hide Run, Inv, Step, RequestTaken;
    StartInv(cfg);
    RunInv(cfg, START, actions);
    var s := Run(cfg, START, actions);
    CallIsOk(cfg, s, call);
    TasksAreOk(cfg, s);
    TakenIff(cfg, s, s.producers[call].task);
    InsertStep(cfg, s, call, c);
  }

  lemma TasksAreOk(cfg: Config, s: System)
    requires Inv(cfg, s)
    ensures TasksOk(cfg, s)
  {
  }

  lemma InsertStep(cfg: Config, s: System, call: nat, c: Choice)
    requires call in s.producers && s.producers[call].Creating? && s.producers[call].task.id !in s.store
    ensures var t, u := s.producers[call].task, Step(cfg, s, ProducerStep(call, c));
            && call in u.producers
            && u.store == (if !RequestTaken(s.store, t) && c.db != BreaksBefore then s.store[t.id := t] else s.store)
            && u.producers[call] == if c.db == BreaksBefore then Returned(t, None) else if RequestTaken(s.store, t) then LookingUp(t)
                                    else if c.db == Works then Pushing(t, 1) else Returned(t, None)
  {
    hide RequestTaken;
  }

  /** The other steps of a call: what it answers, and what it writes. */
  lemma CallFollows(cfg: Config, s: System, call: nat, c: Choice)
    requires call in s.producers && !s.producers[call].Creating?
    ensures var p, u := s.producers[call], Step(cfg, s, ProducerStep(call, c));
            && call in u.producers
            && match p
               case LookingUp(t) =>
                 u.store == s.store && u.producers[call]
                 == Returned(t, if c.readable && c.text in s.store && s.store[c.text].requestId == t.requestId then Some(c.text) else None)
               case Pushing(t, k) =>
                 && u.store == s.store && u.tried[t.id] == s.tried[t.id] + 1
                 && (t.id in u.delivered <==> t.id in s.delivered || c.accepted || c.delivered)
                 && u.producers[call] == if c.accepted then Returned(t, Some(t.id))
                                         else if k >= (if cfg.pushAttempts == 0 then 1 else cfg.pushAttempts) then Compensating(t) else Pushing(t, k + 1)
               case Compensating(t) => u.store == Marked(s.store, t.id, MarkFailed(c.text), c.db) && u.producers[call] == Returned(t, None)
               case _ => u == s
  {
    hide Marked, Grown;
    match s.producers[call]
    case LookingUp(_) =>
    case Pushing(_, _) =>
    case Compensating(t) => MarkFrame(s, t.id, MarkFailed(c.text), c.db);
    case Returned(_, _) =>
  }

  lemma TakenIff(cfg: Config, s: System, t: Task)
    requires TasksOk(cfg, s) && t.requestId != "" && t.id !in s.store
    ensures RequestTaken(s.store, t) <==> exists id :: id in s.store && s.store[id].requestId == t.requestId
  {
    forall id | id in s.store ensures s.store[id].id == id { assert TaskOk(cfg, s, id); }
  }

  // -------------------------------------------------------------------- a run

  const UNANSWERED := FINE.(db := BreaksAfter)
  const FOUND := FINE.(text := "t")
  const AGAIN := Task("u", "r", Pending, "", "")

  const R2 := S1.(store := map["t" := THE_TASK], history := map["t" := [Pending]], producers := map[0 := Returned(THE_TASK, None)])
  const R3 := R2.(issued := {"t", "u"}, producers := R2.producers[1 := Creating(AGAIN)])
  const R4 := R3.(producers := R3.producers[1 := LookingUp(AGAIN)])
  const R5 := R4.(producers := R4.producers[1 := Returned(AGAIN, Some("t"))])

  lemma Stored(cfg: Config) ensures Step(cfg, S1, ProducerStep(0, UNANSWERED)) == R2 {}
  lemma Resubmitted(cfg: Config) ensures Step(cfg, R2, Submit(1, "r", "u")) == R3 {}

  lemma IsTaken(cfg: Config)
    ensures Step(cfg, R3, ProducerStep(1, FINE)) == R4
  {
    assert R3.store["t"].requestId == AGAIN.requestId;
  }

  lemma IsFound(cfg: Config) ensures Step(cfg, R4, ProducerStep(1, FOUND)) == R5 {}

  /**
   * A run that ends so: the insert of a task was stored but answered by an error, the request was submitted again,
   * and this second call was answered with the id of the task, which never enters the queue.
   */
  lemma AnsweredNeverQueued(cfg: Config) returns (actions: seq<Action>)
    ensures var s := Run(cfg, START, actions);
            && 1 in s.producers && s.producers[1].Returned? && s.producers[1].answer == Some("t")
            && "t" in s.store && Stranded(s, "t")
  {
    hide Run, Step, S1, R2, R3, R4, FINE, UNANSWERED, FOUND;
    var r4 := [ProducerStep(1, FOUND)] + [];
    var r3 := [ProducerStep(1, FINE)] + r4;
    var r2 := [Submit(1, "r", "u")] + r3;
    var r1 := [ProducerStep(0, UNANSWERED)] + r2;
    actions := [Submit(0, "r", "t")] + r1;
    RunCons(cfg, START, Submit(0, "r", "t"), r1); To1(cfg);
    RunCons(cfg, S1, ProducerStep(0, UNANSWERED), r2); Stored(cfg);
    RunCons(cfg, R2, Submit(1, "r", "u"), r3); Resubmitted(cfg);
    RunCons(cfg, R3, ProducerStep(1, FINE), r4); IsTaken(cfg);
    RunCons(cfg, R4, ProducerStep(1, FOUND), []); IsFound(cfg);
    RunNothing(cfg, R5);
    LastState();
  }

  lemma LastState()
    ensures 1 in R5.producers && R5.producers[1] == Returned(AGAIN, Some("t")) && Stranded(R5, "t")
  {
  }
}
