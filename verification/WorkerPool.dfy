/** The worker loop body and the producer's submission as sequential code, checked against the system's steps. */
module WorkerPool {
  import opened Basics
  import opened Text
  import opened TaskStore
  import opened TaskSystem

  type StoreReply = r: Reply | Wellformed(r) witness Reply(None, Some(Broken))

  /** The state after a list of calls, or None when one of them is not the call the state waits for. */
  function Follow(cfg: Config, p: Worker, log: seq<Event>): Option<Worker>
    decreases |log|
  {
    if log == [] then Some(p)
    else
      match Follow(cfg, p, log[..|log| - 1])
      case None => None
      case Some(q) => Advance(cfg, q, log[|log| - 1])
  }

  lemma FollowOne(cfg: Config, p: Worker, log: seq<Event>, e: Event)
    requires Follow(cfg, p, log).Some?
    ensures Follow(cfg, p, log + [e]) == Advance(cfg, Follow(cfg, p, log).value, e)
  {
  }

  /**
   * Store, executor, queue message and onFinish as one worker sees them: answers come from anywhere, and
   * every call is logged. `at` is the control state that the calls since `origin` lead to.
   */
  class Services {
    const cfg: Config
    const storeReply: nat -> StoreReply
    const outcome: nat -> Outcome
    const row: nat -> Option<Task>
    const wokeUp: nat -> bool
    const published: nat -> bool
    var log: seq<Event>
    ghost var origin: Worker
    ghost var from: nat
    ghost var at: Worker

    constructor (cfg: Config, storeReply: nat -> StoreReply, outcome: nat -> Outcome, row: nat -> Option<Task>,
                 wokeUp: nat -> bool, published: nat -> bool)
      ensures Valid() && log == [] && this.cfg == cfg
    {
      this.cfg, this.storeReply, this.outcome, this.row := cfg, storeReply, outcome, row;
      this.wokeUp, this.published := wokeUp, published;
      log, origin, from, at := [], Idle, 0, Idle;
    }

    ghost predicate Valid()
      reads this
    {
      from <= |log| && Follow(cfg, origin, log[from..]) == Some(at)
    }

    /** A worker takes a message. */
    ghost method Begin(id: string)
      requires Valid()
      modifies this`origin, this`from, this`at
      ensures Valid() && at == origin == Claiming(id, 0) && from == |log|
    {
      origin, from, at := Claiming(id, 0), |log|, Claiming(id, 0);
    }

    method Record(e: Event)
      requires Valid() && Advance(cfg, at, e).Some?
      modifies this`log, this`at
      ensures Valid() && log == old(log) + [e] && Some(at) == Advance(cfg, old(at), e)
    {
      hide Advance, Follow;
      FollowOne(cfg, origin, log[from..], e);
      assert (log + [e])[from..] == log[from..] + [e];
      at := Advance(cfg, at, e).value;
      log := log + [e];
    }

    method Mark(id: string, m: Mark) returns (task: Option<Task>, error: Option<Error>)
      requires Valid() && forall r :: Advance(cfg, at, Marks(id, m, r)).Some?
      modifies this`log, this`at
      ensures Valid() && Wellformed(Reply(task, error))
      ensures log == old(log) + [Marks(id, m, Reply(task, error))]
      ensures Some(at) == Advance(cfg, old(at), Marks(id, m, Reply(task, error)))
    {
      hide Advance;
      var reply := storeReply(|log|);
      task, error := reply.task, reply.error;
      Record(Marks(id, m, reply));
    }

    method Execute(id: string) returns (o: Outcome)
      requires Valid() && at == Executing(id)
      modifies this`log, this`at
      ensures Valid() && log == old(log) + [Executed(id, o)]
      ensures at == match o case Result(r) => Succeeding(id, r, 0) case Crash(m) => Failing(id, m)
    {
      o := outcome(|log|);
      Record(Executed(id, o));
    }

    method Get(id: string) returns (task: Option<Task>)
      requires Valid() && at.Reading? && at.id == id
      modifies this`log, this`at
      ensures Valid() && log == old(log) + [Got(id, task)]
      ensures at == Finish(id, if task.Some? then task else old(at).fallback)
    {
      task := row(|log|);
      Record(Got(id, task));
    }

    method Sleep() returns (completed: bool)
      requires Valid() && (at.ClaimPause? || at.SuccessPause?)
      modifies this`log, this`at
      ensures Valid() && log == old(log) + [Slept(completed)]
      ensures Some(at) == Advance(cfg, old(at), Slept(completed))
    {
      completed := wokeUp(|log|);
      Record(Slept(completed));
    }

    method OnFinish(task: Task) returns (ok: bool)
      requires Valid() && at.Finishing? && at.done == task
      modifies this`log, this`at
      ensures Valid() && log == old(log) + [Finished(task, ok)]
      ensures at == if ok then Acking(old(at).id, false) else Reporting(task.id)
    {
      ok := published(|log|);
      Record(Finished(task, ok));
    }

    method Ack()
      requires Valid() && at.Acking?
      modifies this`log, this`at
      ensures Valid() && log == old(log) + [Acked]
      ensures at == if old(at).execute then Executing(old(at).id) else Idle
    {
      Record(Acked);
    }
  }

  /** The state in which an operation's retry loop makes its k-th attempt, and the two states after it. */
  function Attempt(id: string, m: Mark, k: nat): Worker
    requires !m.MarkFailed?
  {
    if m.MarkRunning? then Claiming(id, k) else Succeeding(id, m.result, k)
  }

  function Done(id: string, m: Mark): Worker { if m.MarkRunning? then Executing(id) else Reading(id, None) }

  function Lost(id: string, m: Mark): Worker { if m.MarkRunning? then ClaimLost(id) else SuccessLost(id) }

  /** How a retry loop ends: done, with the last error after all attempts, or cut short by the context. */
  datatype Retry = Recovered(task: Task) | Exhausted(last: Error) | Interrupted

  /** The call that ends the loop in this way. */
  predicate Ends(e: Event, id: string, m: Mark, r: Retry) {
    match r
    case Recovered(t) => e == Marks(id, m, Reply(Some(t), None))
    case Exhausted(last) => e.Marks? && e.id == id && e.mark == m && e.reply.error == Some(last)
    case Interrupted => e == Slept(false)
  }

  /** The states after an attempt of the loop. */
  lemma AfterAttempt(cfg: Config, id: string, m: Mark)
    requires !m.MarkFailed?
    ensures forall k, r {:trigger Advance(cfg, Attempt(id, m, k), Marks(id, m, r))} :: k >= 1 ==>
              Advance(cfg, Attempt(id, m, k), Marks(id, m, r))
              == Some(if r.error == None then Done(id, m) else if k >= cfg.attempts then Lost(id, m)
                      else if m.MarkRunning? then ClaimPause(id, k) else SuccessPause(id, m.result, k))
  {
  }

  lemma AttemptIs(id: string, result: string)
    ensures Attempt(id, MarkSucceeded(result), 1) == Succeeding(id, result, 1)
  {
  }

  /** retryInputOperation for one of the two operations it is used with: what it returns is what its last call answered. */
  method RetryInputOperation(services: Services, id: string, m: Mark) returns (r: Retry)
    requires services.Valid() && !m.MarkFailed? && services.at == Attempt(id, m, 1) && services.cfg.attempts >= 1
    modifies services
    ensures services.Valid() && services.origin == old(services.origin) && services.from == old(services.from)
    ensures services.at == if r.Recovered? then Done(id, m) else Lost(id, m)
    ensures old(services.log) < services.log && Ends(services.log[|services.log| - 1], id, m, r)
    ensures |services.log| - |old(services.log)| <= 2 * services.cfg.attempts - 1
    ensures r.Exhausted? ==> |services.log| - |old(services.log)| == 2 * services.cfg.attempts - 1
  {
    hide Follow, AfterClaim, AfterSuccess, Finish;
    AfterAttempt(services.cfg, id, m);
    var attempts := services.cfg.attempts;
    var attempt := 1;
    while true
      invariant 1 <= attempt <= attempts
      invariant services.Valid() && services.at == Attempt(id, m, attempt)
      invariant services.origin == old(services.origin) && services.from == old(services.from)
      invariant old(services.log) <= services.log && |services.log| - |old(services.log)| == 2 * (attempt - 1)
      decreases attempts - attempt
    {
      var next, error := services.Mark(id, m);
      if error == None { return Recovered(next.value); }
      if attempt == attempts { return Exhausted(error.value); }
      var completed := services.Sleep();
      if !completed { return Interrupted; }
      attempt := attempt + 1;
    }
  }

  /** publishDone: nothing for a nil task; a publication that stays unsuccessful marks the task failed. */
  method PublishDone(services: Services, ghost id: string, done: Option<Task>, failure: string)
    requires services.Valid() && services.at == Finish(id, done)
    modifies services
    ensures services.Valid() && services.origin == old(services.origin) && services.from == old(services.from)
    ensures services.at.Acking? && !services.at.execute
    ensures done == None ==> services.log == old(services.log)
    ensures done != None ==> old(services.log) < services.log && services.log[|old(services.log)|].Finished?
                             && services.log[|old(services.log)|].done == done.value
  {
    if done == None { return; }
    var ok := services.OnFinish(done.value);
    if !ok {
      var _, _ := services.Mark(done.value.id, MarkFailed(failure));
    }
  }

  /** The claim: MarkRunning, its retries, and what to do when they fail. */
  method Claim(services: Services, id: string, lost: string) returns (proceed: bool)
    requires services.Valid() && services.cfg.attempts >= 1 && services.at == Claiming(id, 0)
    modifies services
    ensures services.Valid() && services.origin == old(services.origin) && services.from == old(services.from)
    ensures services.at == if proceed then Executing(id) else Idle
  {
    var runningTask, err := services.Mark(id, MarkRunning);
    if err != None {
      if err == Some(NotFound) {
        services.Ack();
      } else if err == Some(AlreadyStarted) || err == Some(AlreadyCompleted) {
        services.Ack();
      } else {
        var retry := RetryInputOperation(services, id, MarkRunning);
        if !retry.Recovered? {
          var _, _ := services.Mark(id, MarkFailed(lost));
          services.Ack();
          return false;
        }
        runningTask := Some(retry.task);
      }
      if runningTask == None { return false; }
    }
    return true;
  }

  method AfterCrash(services: Services, id: string, message: string, failure: string)
    requires services.Valid() && services.at == Failing(id, message)
    modifies services
    ensures services.Valid() && services.origin == old(services.origin) && services.from == old(services.from)
    ensures services.at == Idle
  {
    var doneTask, err := services.Mark(id, MarkFailed(message));
    if err != None {
      if err == Some(AlreadyCompleted) || err == Some(AlreadyStarted) {
        services.Ack();
        return;
      }
    } else {
      PublishDone(services, id, doneTask, failure);
    }
    services.Ack();
  }

  method AfterResult(services: Services, id: string, result: string, lost: string, failure: string)
    requires services.Valid() && services.cfg.attempts >= 1 && services.at == Succeeding(id, result, 0)
    modifies services
    ensures services.Valid() && services.origin == old(services.origin) && services.from == old(services.from)
    ensures services.at == Idle
  {
    hide Follow, Attempt;
    AttemptIs(id, result);
    var doneTask, err := services.Mark(id, MarkSucceeded(result));
    if err != None {
      if err == Some(AlreadyCompleted) || err == Some(AlreadyStarted) {
        var currentTask := services.Get(id);
        if currentTask != None { doneTask := currentTask; }
      } else {
        var retry := RetryInputOperation(services, id, MarkSucceeded(result));
        if !retry.Recovered? {
          var _, _ := services.Mark(id, MarkFailed(lost));
        } else {
          doneTask := services.Get(id);
        }
      }
    }
    PublishDone(services, id, doneTask, failure);
    services.Ack();
  }

  /**
   * The loop body of runWorker for one message. `lost` and `failure` stand for the texts of wrapped
   * errors. Whatever the services answer, the calls are exactly those of a worker of the system, from
   * the claim back to the idle state.
   */
  method HandleMessage(services: Services, id: string, lost: string, failure: string)
    requires services.Valid() && services.cfg.attempts >= 1
    modifies services
    ensures services.Valid() && services.from == |old(services.log)| <= |services.log|
    ensures Follow(services.cfg, Claiming(id, 0), services.log[|old(services.log)|..]) == Some(Idle)
  {
    hide Advance, Follow;
    services.Begin(id);
    var proceed := Claim(services, id, lost);
    if !proceed { return; }
    var outcome := services.Execute(id);
    match outcome {
      case Crash(message) => AfterCrash(services, id, message, failure);
      case Result(result) => AfterResult(services, id, result, lost, failure);
    }
  }

  // ------------------------------------------------------------- what a log can hold

  function Count(log: seq<Event>, executed: bool): nat
    decreases |log|
  {
    if log == [] then 0
    else Count(log[..|log| - 1], executed)
         + (if (if executed then log[|log| - 1].Executed? else log[|log| - 1].Finished?) then 1 else 0)
  }

  /** The task has been executed and not yet handed to onFinish. */
  predicate Spent(p: Worker) {
    p.Failing? || p.Succeeding? || p.SuccessPause? || p.SuccessLost? || p.Reading? || p.Finishing?
  }

  /** Handling one message executes at most once and publishes at most once, and only after executing. */
  lemma {:induction false} OneMessageOneExecution(cfg: Config, id: string, log: seq<Event>)
    requires Follow(cfg, Claiming(id, 0), log).Some?
    ensures Count(log, false) <= Count(log, true) <= 1
    ensures var q := Follow(cfg, Claiming(id, 0), log).value;
            && (q.Claiming? || q.ClaimPause? || q.ClaimLost? || q.Executing? ==> Count(log, true) == 0)
            && (q.Acking? && q.execute ==> Count(log, true) == 0)
            && (Spent(q) ==> Count(log, true) == 1 && Count(log, false) == 0)
    decreases |log|
  {
    if log != [] {
      OneMessageOneExecution(cfg, id, log[..|log| - 1]);
    }
  }

  /** The acknowledgements in a log. */
  function Acks(log: seq<Event>): nat
    decreases |log|
  {
    if log == [] then 0 else Acks(log[..|log| - 1]) + if log[|log| - 1].Acked? then 1 else 0
  }

  /** A refusal that carries a task, on the first claim. */
  predicate LeakyLog(log: seq<Event>) {
    |log| > 0 && log[0].Marks? && log[0].reply.error.Some? && Refusal(log[0].reply.error.value) && log[0].reply.task.Some?
  }

  /**
   * Handling one message acknowledges it exactly once, at its end; only a first refusal that carries a task, which
   * the worker acknowledges before it goes on to execute, leads to a second acknowledgement.
   */
  lemma {:induction false} OneMessageOneAck(cfg: Config, id: string, log: seq<Event>)
    requires Follow(cfg, Claiming(id, 0), log).Some?
    ensures var q, n := Follow(cfg, Claiming(id, 0), log).value, if LeakyLog(log) && |log| > 1 then 1 else 0;
            && (q.Idle? ==> Acks(log) == n + 1 && log != [] && log[|log| - 1].Acked?)
            && (!q.Idle? ==> Acks(log) == n)
            && (q.Acking? && q.execute <==> LeakyLog(log) && |log| == 1)
    decreases |log|
  {
    if |log| > 1 {
      var front := log[..|log| - 1];
      assert front[0] == log[0];
      OneMessageOneAck(cfg, id, front);
    } else if |log| == 1 {
      assert log[..0] == [];
    }
  }

  lemma {:induction false} FollowPrefix(cfg: Config, p: Worker, log: seq<Event>, n: nat)
    requires Follow(cfg, p, log).Some? && n <= |log|
    ensures Follow(cfg, p, log[..n]).Some?
    ensures n < |log| ==>
              Follow(cfg, p, log[..n + 1]).Some? && Advance(cfg, Follow(cfg, p, log[..n]).value, log[n]) == Follow(cfg, p, log[..n + 1])
    decreases |log|
  {
    hide Advance;
    if n == |log| {
      assert log[..n] == log;
    } else {
      var front := log[..|log| - 1];
      assert front[..n] == log[..n];
      if n + 1 == |log| { assert log[..n + 1] == log && front == log[..n]; } else { assert front[..n + 1] == log[..n + 1]; }
      FollowPrefix(cfg, p, front, n);
    }
  }

  /** A message whose first claim is refused without a task is acknowledged, and that is all. */
  lemma RefusedClaimIsDropped(cfg: Config, id: string, log: seq<Event>)
    requires Follow(cfg, Claiming(id, 0), log).Some? && log != [] && log[0].Marks? && log[0].reply.task == None
    requires log[0].reply.error in {Some(NotFound), Some(AlreadyStarted), Some(AlreadyCompleted)}
    ensures log == [log[0]] || log == [log[0], Acked]
    ensures |log| == 2 ==> Follow(cfg, Claiming(id, 0), log) == Some(Idle)
  {
    hide Follow;
    StartsThere(cfg, id, log);
    FollowPrefix(cfg, Claiming(id, 0), log, 0);
    if |log| > 1 { FollowPrefix(cfg, Claiming(id, 0), log, 1); }
    if |log| > 2 { FollowPrefix(cfg, Claiming(id, 0), log, 2); }
    assert log[..|log|] == log;
  }

  lemma StartsThere(cfg: Config, id: string, log: seq<Event>)
    ensures Follow(cfg, Claiming(id, 0), log[..0]) == Some(Claiming(id, 0))
  {
  }

  /** The finished task that the store answers: to the mark after the execution, or to the read. */
  predicate Answered(log: seq<Event>, i: nat, id: string, t: Task)
    requires i < |log|
  {
    || log[i] == Got(id, Some(t))
    || (i > 0 && log[i - 1].Executed? && log[i].Marks? && log[i].reply == Reply(Some(t), None))
  }

  /** A finished task that the store answers is handed to onFinish at once. */
  lemma FinishedTaskIsHandedOver(cfg: Config, id: string, log: seq<Event>, i: nat, t: Task)
    requires Follow(cfg, Claiming(id, 0), log).Some? && i < |log| && Answered(log, i, id, t)
    ensures i + 1 < |log| ==> log[i + 1].Finished? && log[i + 1].done == t
    ensures i + 1 == |log| ==> Follow(cfg, Claiming(id, 0), log) == Some(Finishing(id, t))
  {
    hide Follow;
    var p := Claiming(id, 0);
    if i > 0 { FollowPrefix(cfg, p, log, i - 1); SameMessage(cfg, id, log[..i - 1]); }
    FollowPrefix(cfg, p, log, i);
    SameMessage(cfg, id, log[..i]);
    if i + 1 < |log| { FollowPrefix(cfg, p, log, i + 1); } else { assert log[..i + 1] == log; }
  }

  /** Every state of the handling of a message is about that message's task, or it is over. */
  lemma {:induction false} SameMessage(cfg: Config, id: string, log: seq<Event>)
    requires Follow(cfg, Claiming(id, 0), log).Some?
    ensures var q := Follow(cfg, Claiming(id, 0), log).value; !q.Idle? && !q.Reporting? && !q.Acking? ==> q.id == id
    decreases |log|
  {
    if log != [] { SameMessage(cfg, id, log[..|log| - 1]); }
  }

  /** In a log, what comes right after each kind of call. */
  lemma NextCall(cfg: Config, id: string, log: seq<Event>, i: nat)
    requires Follow(cfg, Claiming(id, 0), log).Some? && i + 1 < |log|
    ensures var e, f := log[i], log[i + 1];
            && (e.Executed? ==> f.Marks? && f.id == id && f.mark == match e.outcome case Result(r) => MarkSucceeded(r) case Crash(m) => MarkFailed(m))
            && (e.Marks? && e.mark.MarkRunning? && e.reply.error == None ==> f.Executed? && f.id == id)
            && (e.Slept? ==> f.Marks? && (if e.completed then i > 0 && log[i - 1].Marks? && f.mark == log[i - 1].mark else f.mark.MarkFailed?))
            && (e.Finished? ==> if e.published then f.Acked? else f.Marks? && f.mark.MarkFailed? && f.id == e.done.id)
            && (e.Marks? && e.mark.MarkFailed? && (i == 0 || !log[i - 1].Executed?) ==> f.Acked?)
            && (e.Marks? && e.mark.MarkFailed? && e.reply.error.Some? ==> f.Acked?)
  {
    hide Follow;
    var p := Claiming(id, 0);
    if i > 0 { FollowPrefix(cfg, p, log, i - 1); SameMessage(cfg, id, log[..i - 1]); }
    FollowPrefix(cfg, p, log, i);
    FollowPrefix(cfg, p, log, i + 1);
    SameMessage(cfg, id, log[..i]);
    StartsThere(cfg, id, log);
  }

  // ---------------------------------------------------------------- submission

  /** What the queue answers to one submission's pushes, and what the database does. */
  datatype Answers = Answers(create: Db, readable: bool, accepts: nat -> bool, compensate: Db)

  /** enqueueWithRetry: the number of the accepted attempt, or all attempts used up. */
  method EnqueueWithRetry(maxAttempts: int, accepts: nat -> bool) returns (ok: bool, tries: nat)
    ensures 1 <= tries <= if maxAttempts <= 0 then 1 else maxAttempts
    ensures forall k :: 1 <= k < tries ==> !accepts(k)
    ensures if ok then accepts(tries) else !accepts(tries) && tries == if maxAttempts <= 0 then 1 else maxAttempts
  {
    var attempts := maxAttempts;
    if attempts <= 0 {
      attempts := 1;
    }
    var attempt := 1;
    while attempt <= attempts
      invariant 1 <= attempt <= attempts
      invariant forall k :: 1 <= k < attempt ==> !accepts(k)
    {
      if accepts(attempt) { return true, attempt; }
      if attempt == attempts { break; }
      attempt := attempt + 1;
    }
    return false, attempt;
  }

  /** createAndEnqueue: the caller's answer, the tries made and the rows left behind, case by case. */
  method CreateAndEnqueue(store: GormStore, maxAttempts: int, requestId: string, taskId: string, answers: Answers, failure: string)
    returns (answer: Option<Task>, tries: nat)
    modifies store
    ensures var t := NewTask(requestId, taskId);
            var rows0 := old(store.rows);
            var created := answers.create != BreaksBefore && t.id !in rows0 && !RequestTaken(rows0, t);
            && (answer.Some? ==> answer.value.requestId == t.requestId)
            && (!created ==> store.rows == rows0 && tries == 0)
            && (!created && answer.Some? ==> exists id :: id in rows0 && rows0[id] == answer.value)
            && (created && answers.create == BreaksAfter ==> answer == None && tries == 0 && store.rows == rows0[t.id := t])
            && (created && answers.create == Works ==>
                  && 1 <= tries <= (if maxAttempts <= 0 then 1 else maxAttempts)
                  && (forall k :: 1 <= k < tries ==> !answers.accepts(k))
                  && (if answers.accepts(tries) then answer == Some(t) && store.rows == rows0[t.id := t]
                      else answer == None && tries == (if maxAttempts <= 0 then 1 else maxAttempts)
                           && store.rows == Marked(rows0[t.id := t], GoTrim(t.id), MarkFailed(failure), answers.compensate)))
  {
    hide GoTrim;
    var t := NewTask(requestId, taskId);
    var err := store.Create(t, answers.create);
    if err != None {
      if err == Some(DuplicateRequest) && answers.readable {
        var existing := FindByRequest(store.rows, t.requestId);
        if existing != None { return existing, 0; }
      }
      return None, 0;
    }
    var ok, n := EnqueueWithRetry(maxAttempts, answers.accepts);
    if !ok {
      var _, _ := store.MarkFailed(t.id, failure, answers.compensate);
      return None, n;
    }
    return Some(t), n;
  }

  /** The compensation writes nothing: the task it names has just been stored as pending. */
  lemma CompensationWritesNothing(rows: Store, requestId: string, taskId: string, failure: string, db: Db)
    requires GoTrim(taskId) == taskId
    ensures var t := NewTask(requestId, taskId);
            Marked(rows[t.id := t], GoTrim(t.id), MarkFailed(failure), db) == rows[t.id := t]
  {
  }
}
