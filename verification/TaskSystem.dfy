/**
 * Producers, a redelivering queue, workers and the task store as one system of atomic steps.
 * A worker is a control state; each step performs the one call the state waits for.
 */
module TaskSystem {
  import opened Basics
  import opened Text
  import opened TaskStore

  // ------------------------------------------------------- worker control flow

  /** Where a worker stands in its loop body; every state but Idle concerns one queue message. */
  datatype Worker =
    | Idle
    | Claiming(id: string, attempt: nat)                  // MarkRunning; attempt 0 is the call outside the retry loop
    | ClaimPause(id: string, attempt: nat)                // the sleep between two attempts
    | ClaimLost(id: string)                               // MarkFailed after the last attempt
    | Acking(id: string, execute: bool)                   // Ack, then execute or go back to the queue
    | Executing(id: string)
    | Failing(id: string, message: string)                // MarkFailed with the execution error
    | Succeeding(id: string, result: string, attempt: nat)
    | SuccessPause(id: string, result: string, attempt: nat)
    | SuccessLost(id: string)
    | Reading(id: string, fallback: Option<Task>)         // Get, for the task to hand to onFinish
    | Finishing(id: string, done: Task)                   // onFinish
    | Reporting(id: string)                               // MarkFailed after onFinish could not publish

  datatype Outcome = Result(text: string) | Crash(message: string)

  /** A call a worker makes, with its answer. */
  datatype Event =
    | Marks(id: string, mark: Mark, reply: Reply)
    | Slept(completed: bool)
    | Acked
    | Executed(id: string, outcome: Outcome)
    | Got(id: string, task: Option<Task>)
    | Finished(done: Task, published: bool)

  /** With `leaky`, refusals carry a task; `attempts` bounds each retry loop. */
  datatype Config = Config(leaky: bool, attempts: nat, pushAttempts: nat)

  predicate Refusal(e: Error) {
    e == NotFound || e == AlreadyStarted || e == AlreadyCompleted
  }

  function AfterClaim(cfg: Config, id: string, attempt: nat, reply: Reply): Worker {
    match reply.error
    case None => Executing(id)
    case Some(e) =>
      if attempt == 0 then
        (if Refusal(e) then Acking(id, reply.task.Some?) else Claiming(id, 1))
      else if attempt >= cfg.attempts then ClaimLost(id)
      else ClaimPause(id, attempt)
  }

  function Finish(id: string, done: Option<Task>): Worker {
    match done
    case None => Acking(id, false)
    case Some(t) => Finishing(id, t)
  }

  function AfterSuccess(cfg: Config, id: string, result: string, attempt: nat, reply: Reply): Worker {
    match reply.error
    case None => if attempt == 0 then Finish(id, reply.task) else Reading(id, None)
    case Some(e) =>
      if attempt == 0 then
        (if e == AlreadyCompleted || e == AlreadyStarted then Reading(id, reply.task) else Succeeding(id, result, 1))
      else if attempt >= cfg.attempts then SuccessLost(id)
      else SuccessPause(id, result, attempt)
  }

  /** The next control state, or None when the worker would not make this call here. */
  function Advance(cfg: Config, p: Worker, e: Event): Option<Worker> {
    match p
    case Claiming(id, k) =>
      if e.Marks? && e.id == id && e.mark.MarkRunning? then Some(AfterClaim(cfg, id, k, e.reply)) else None
    case ClaimPause(id, k) =>
      if e.Slept? then Some(if e.completed then Claiming(id, k + 1) else ClaimLost(id)) else None
    case ClaimLost(id) =>
      if e.Marks? && e.id == id && e.mark.MarkFailed? then Some(Acking(id, false)) else None
    case Acking(id, execute) =>
      if e.Acked? then Some(if execute then Executing(id) else Idle) else None
    case Executing(id) =>
      if e.Executed? && e.id == id
      then Some(match e.outcome case Result(r) => Succeeding(id, r, 0) case Crash(m) => Failing(id, m))
      else None
    case Failing(id, message) =>
      if e.Marks? && e.id == id && e.mark == MarkFailed(message)
      then Some(if e.reply.error == None then Finish(id, e.reply.task) else Acking(id, false))
      else None
    case Succeeding(id, result, k) =>
      if e.Marks? && e.id == id && e.mark == MarkSucceeded(result)
      then Some(AfterSuccess(cfg, id, result, k, e.reply))
      else None
    case SuccessPause(id, result, k) =>
      if e.Slept? then Some(if e.completed then Succeeding(id, result, k + 1) else SuccessLost(id)) else None
    case SuccessLost(id) =>
      if e.Marks? && e.id == id && e.mark.MarkFailed? then Some(Acking(id, false)) else None
    case Reading(id, fallback) =>
      if e.Got? && e.id == id then Some(Finish(id, if e.task.Some? then e.task else fallback)) else None
    case Finishing(id, done) =>
      if e.Finished? && e.done == done then Some(if e.published then Acking(id, false) else Reporting(done.id)) else None
    case Reporting(id) =>
      if e.Marks? && e.id == id && e.mark.MarkFailed? then Some(Acking(id, false)) else None
    case Idle => None
  }

  // ----------------------------------------------------- producer control flow

  datatype Producer =
    | Creating(task: Task)
    | LookingUp(task: Task)
    | Pushing(task: Task, attempt: nat)      // attempts counted from 1
    | Compensating(task: Task)
    | Returned(task: Task, answer: Option<string>)

  /** strings.TrimSpace of the request id, or of the task id when that is empty. */
  function NormalizeRequestId(requestId: string, taskId: string): string {
    if GoTrim(requestId) != "" then GoTrim(requestId) else GoTrim(taskId)
  }

  function NewTask(requestId: string, taskId: string): Task {
    Task(taskId, NormalizeRequestId(requestId, taskId), Pending, "", "")
  }

  function MaxPushes(cfg: Config): nat { if cfg.pushAttempts == 0 then 1 else cfg.pushAttempts }

  // ------------------------------------------------------------------- system

  /**
   * `history` records each task's statuses, `executed`, `finished`, `tried` and `pushed` count calls by
   * task, `handed` holds every task given to onFinish, `delivered` the ids the queue has ever held,
   * `issued` the task ids ever generated.
   */
  datatype System = System(store: Store, history: map<string, seq<Status>>, delivered: set<string>, issued: set<string>,
                           workers: map<nat, Worker>, producers: map<nat, Producer>,
                           executed: multiset<string>, finished: multiset<string>, handed: set<Task>,
                           tried: multiset<string>, pushed: multiset<string>)

  const START := System(map[], map[], {}, {}, map[], map[], multiset{}, multiset{}, {}, multiset{}, multiset{})

  /** Everything the environment decides in one step. */
  datatype Choice = Choice(db: Db, readable: bool, completed: bool, published: bool, accepted: bool, delivered: bool,
                           text: string, crash: bool)

  datatype Action =
    | Submit(call: nat, requestId: string, taskId: string)
    | ProducerStep(call: nat, choice: Choice)
    | Pop(worker: nat, id: string)
    | WorkerStep(worker: nat, choice: Choice)
    | WorkerDies(worker: nat)

  function At(s: System, w: nat): Worker {
    if w in s.workers then s.workers[w] else Idle
  }

  function Lookup(s: Store, id: string, readable: bool): Option<Task> {
    if readable && id in s then Some(s[id]) else None
  }

  /** GetByRequestID: some row with the request id, or nothing when the read fails. */
  function FoundRequest(s: Store, requestId: string, c: Choice): Option<string> {
    if c.readable && c.text in s && s[c.text].requestId == requestId then Some(c.text) else None
  }

  /** The call a worker makes from its state, answered by the store and the environment. */
  function CallOf(cfg: Config, s: Store, p: Worker, c: Choice): Event
    requires !p.Idle?
  {
    match p
    case Claiming(id, _) => Marks(id, MarkRunning, ReplyTo(cfg.leaky, s, id, MarkRunning, c.db))
    case ClaimPause(_, _) => Slept(c.completed)
    case ClaimLost(id) => Marks(id, MarkFailed(c.text), ReplyTo(cfg.leaky, s, id, MarkFailed(c.text), c.db))
    case Acking(_, _) => Acked
    case Executing(id) => Executed(id, if c.crash then Crash(c.text) else Result(c.text))
    case Failing(id, m) => Marks(id, MarkFailed(m), ReplyTo(cfg.leaky, s, id, MarkFailed(m), c.db))
    case Succeeding(id, r, _) => Marks(id, MarkSucceeded(r), ReplyTo(cfg.leaky, s, id, MarkSucceeded(r), c.db))
    case SuccessPause(_, _, _) => Slept(c.completed)
    case SuccessLost(id) => Marks(id, MarkFailed(c.text), ReplyTo(cfg.leaky, s, id, MarkFailed(c.text), c.db))
    case Reading(id, _) => Got(id, Lookup(s, id, c.readable))
    case Finishing(_, done) => Finished(done, c.published)
    case Reporting(id) => Marks(id, MarkFailed(c.text), ReplyTo(cfg.leaky, s, id, MarkFailed(c.text), c.db))
  }

  function Grown(h: map<string, seq<Status>>, id: string, before: Store, after: Store): map<string, seq<Status>> {
    if id in h && id in before && id in after && before[id].status != after[id].status
    then h[id := h[id] + [after[id].status]] else h
  }

  function WithMark(s: System, id: string, m: Mark, db: Db): System {
    var after := Marked(s.store, id, m, db);
    s.(store := after, history := Grown(s.history, id, s.store, after))
  }

  /** What a call does to the system besides its answer. */
  function Effect(s: System, e: Event, db: Db): System {
    match e
    case Marks(id, m, _) => WithMark(s, id, m, db)
    case Executed(id, _) => s.(executed := s.executed + multiset{id})
    case Finished(t, _) => s.(finished := s.finished + multiset{t.id}, handed := s.handed + {t})
    case _ => s
  }

  function StepWorker(cfg: Config, s: System, w: nat, c: Choice): System {
    var p := At(s, w);
    if p.Idle? then s
    else
      var e := CallOf(cfg, s.store, p, c);
      match Advance(cfg, p, e)
      case None => s
      case Some(next) => Effect(s, e, c.db).(workers := s.workers[w := next])
  }

  function StepProducer(cfg: Config, s: System, call: nat, c: Choice): System {
    if call !in s.producers then s
    else match s.producers[call]
      case Creating(t) =>
        if c.db == BreaksBefore || t.id in s.store then s.(producers := s.producers[call := Returned(t, None)])
        else if RequestTaken(s.store, t) then s.(producers := s.producers[call := LookingUp(t)])
        else s.(store := s.store[t.id := t], history := s.history[t.id := [t.status]],
                producers := s.producers[call := if c.db == Works then Pushing(t, 1) else Returned(t, None)])
      case LookingUp(t) =>
        s.(producers := s.producers[call := Returned(t, FoundRequest(s.store, t.requestId, c))])
      case Pushing(t, k) =>
        s.(tried := s.tried + multiset{t.id},
           delivered := if c.accepted || c.delivered then s.delivered + {t.id} else s.delivered,
           pushed := if c.accepted then s.pushed + multiset{t.id} else s.pushed,
           producers := s.producers[call := if c.accepted then Returned(t, Some(t.id))
                                            else if k >= MaxPushes(cfg) then Compensating(t) else Pushing(t, k + 1)])
      case Compensating(t) =>
        WithMark(s, t.id, MarkFailed(c.text), c.db).(producers := s.producers[call := Returned(t, None)])
      case Returned(_, _) => s
  }

  function Step(cfg: Config, s: System, a: Action): System {
    match a
    case Submit(call, requestId, taskId) =>
      if call in s.producers || taskId in s.issued || GoTrim(taskId) == "" then s
      else s.(issued := s.issued + {taskId}, producers := s.producers[call := Creating(NewTask(requestId, taskId))])
    case ProducerStep(call, c) => StepProducer(cfg, s, call, c)
    case Pop(w, id) =>
      if At(s, w).Idle? && id in s.delivered then s.(workers := s.workers[w := Claiming(id, 0)]) else s
    case WorkerStep(w, c) => StepWorker(cfg, s, w, c)
    case WorkerDies(w) => s.(workers := s.workers[w := Idle])
  }

  /** Any interleaving: an action that is not possible leaves the system as it is. */
  function Run(cfg: Config, s: System, actions: seq<Action>): System
    decreases |actions|
  {
    if actions == [] then s else Run(cfg, Step(cfg, s, actions[0]), actions[1..])
  }
}
