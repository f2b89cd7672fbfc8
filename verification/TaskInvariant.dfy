/** What every step of the task system keeps, whoever takes it and however its calls end. */
module TaskInvariant {
  import opened Basics
  import opened Text
  import opened TaskStore
  import opened TaskSystem

  // ---------------------------------------------------------------- invariant

  /** The worker holds the claim on the task and has not handed it to onFinish yet. */
  predicate Holds(p: Worker, id: string) {
    match p
    case Executing(i) => i == id
    case Failing(i, _) => i == id
    case Succeeding(i, _, _) => i == id
    case SuccessPause(i, _, _) => i == id
    case SuccessLost(i) => i == id
    case Reading(i, _) => i == id
    case Finishing(i, _) => i == id
    case _ => false
  }

  /** A terminal task, exactly as it is stored. */
  predicate Settled(s: System, t: Task) {
    t.id in s.store && s.store[t.id] == t && Terminal(t.status)
  }

  predicate TaskOk(cfg: Config, s: System, id: string) {
    && (id in s.store <==> id in s.history)
    && (id in s.store ==>
          && s.store[id].id == id && s.store[id].requestId != "" && id in s.issued
          && Lifecycle(s.history[id]) && Last(s.history[id]) == s.store[id].status
          && (id !in s.delivered ==> s.store[id].status == Pending))
    && (id in s.delivered ==> id in s.store)
    && s.finished[id] <= s.executed[id] <= 1
    && s.pushed[id] <= 1 && s.tried[id] <= MaxPushes(cfg)
    && (id !in s.store || s.store[id].status == Pending ==> s.executed[id] == 0)
    && (id !in s.issued ==> s.tried[id] == 0 && s.pushed[id] == 0)
  }

  predicate WorkerOk(s: System, p: Worker) {
    && (!p.Idle? ==> p.id in s.delivered)
    && (p.Acking? ==> !p.execute)
    && (!p.Idle? && Holds(p, p.id) ==>
          && p.id in s.store && s.store[p.id].status != Pending
          && s.finished[p.id] == 0
          && s.executed[p.id] == if p.Executing? then 0 else 1)
    && (p.Finishing? ==> p.done.id == p.id && Settled(s, p.done))
    && (p.Reading? ==> p.fallback == None && p.id in s.store && Terminal(s.store[p.id].status))
  }

  predicate ProducerOk(cfg: Config, s: System, p: Producer) {
    && p.task.id in s.issued && p.task.requestId != ""
    && match p
       case Creating(t) => t.id !in s.store && t.status == Pending && s.tried[t.id] == 0 && s.pushed[t.id] == 0
       case LookingUp(t) => t.id !in s.store
       case Pushing(t, k) =>
         && t.id in s.store && s.store[t.id].requestId == t.requestId
         && 1 <= k <= MaxPushes(cfg) && s.tried[t.id] == k - 1 && s.pushed[t.id] == 0
       case Compensating(t) => t.id in s.store && s.tried[t.id] == MaxPushes(cfg) && s.pushed[t.id] == 0
       case Returned(t, answer) =>
         answer.Some? ==>
           && answer.value in s.store && s.store[answer.value].requestId == t.requestId
           && (answer.value == t.id ==> t.id in s.delivered)
  }

  ghost predicate TasksOk(cfg: Config, s: System) { forall id :: TaskOk(cfg, s, id) }

  ghost predicate WorkersOk(s: System) { forall w :: WorkerOk(s, At(s, w)) }

  ghost predicate Exclusive(s: System) {
    forall v, w, id :: Holds(At(s, v), id) && Holds(At(s, w), id) ==> v == w
  }

  predicate UniqueRequests(s: Store) {
    forall a, b :: a in s && b in s && s[a].requestId == s[b].requestId ==> a == b
  }

  predicate HandedOk(s: System) { forall t :: t in s.handed ==> Settled(s, t) }

  ghost predicate ProducersOk(cfg: Config, s: System) {
    forall c :: c in s.producers ==> ProducerOk(cfg, s, s.producers[c])
  }

  predicate OneCallPerTask(s: System) {
    forall c, d :: c in s.producers && d in s.producers && s.producers[c].task.id == s.producers[d].task.id ==> c == d
  }

  ghost predicate Inv(cfg: Config, s: System) {
    && TasksOk(cfg, s) && WorkersOk(s) && Exclusive(s) && UniqueRequests(s.store) && HandedOk(s)
    && ProducersOk(cfg, s) && OneCallPerTask(s)
  }

  lemma StartInv(cfg: Config)
    ensures Inv(cfg, START)
  {
  }

  /** Putting a worker into a state that the system allows it. */
  lemma MoveWorker(cfg: Config, s: System, w: nat, next: Worker)
    requires Inv(cfg, s) && WorkerOk(s, next)
    requires forall v, id :: v != w && Holds(At(s, v), id) ==> !Holds(next, id)
    ensures Inv(cfg, s.(workers := s.workers[w := next]))
  {
    hide Holds, Lifecycle, Last, MaxPushes;
    var t := s.(workers := s.workers[w := next]);
    forall id ensures TaskOk(cfg, t, id) { assert TaskOk(cfg, s, id); }
    forall v ensures WorkerOk(t, At(t, v)) { assert WorkerOk(s, At(s, v)); }
    forall u, v, id | Holds(At(t, u), id) && Holds(At(t, v), id) ensures u == v {
      assert u != w ==> At(t, u) == At(s, u);
      assert v != w ==> At(t, v) == At(s, v);
    }
    forall c | c in t.producers ensures ProducerOk(cfg, t, t.producers[c]) { assert ProducerOk(cfg, s, s.producers[c]); }
  }

  /** A mark on a delivered task: at most one status step, nothing settled moves. */
  lemma MarkKeeps(cfg: Config, s: System, id: string, m: Mark, db: Db)
    requires Inv(cfg, s) && (id in s.delivered || Marked(s.store, id, m, db) == s.store)
    ensures Inv(cfg, WithMark(s, id, m, db))
  {
    var t := WithMark(s, id, m, db);
    assert TaskOk(cfg, s, id);
    if t.store == s.store {
      assert t == s;
    } else {
      MarkMovesForward(s.store, id, m, db, s.history[id]);
      MarkFacts(cfg.leaky, s.store, id, m, db);
      MarkTasks(cfg, s, id, m, db);
      MarkWorkers(cfg, s, id, m, db);
      forall c | c in t.producers ensures ProducerOk(cfg, t, t.producers[c]) { assert ProducerOk(cfg, s, s.producers[c]); }
      assert forall v :: At(t, v) == At(s, v);
    }
  }

  lemma MarkTasks(cfg: Config, s: System, id: string, m: Mark, db: Db)
    requires TasksOk(cfg, s) && id in s.delivered && id in s.store && id in s.history
    requires var after := Marked(s.store, id, m, db);
             && after.Keys == s.store.Keys
             && (forall other :: other in s.store && other != id ==> after[other] == s.store[other])
             && after[id].id == s.store[id].id && after[id].requestId == s.store[id].requestId
             && after[id].status != s.store[id].status
             && Lifecycle(s.history[id] + [after[id].status])
             && after[id].status != Pending
    ensures TasksOk(cfg, WithMark(s, id, m, db))
  {
    hide Marked, Lifecycle;
    var t := WithMark(s, id, m, db);
    forall i ensures TaskOk(cfg, t, i) { assert TaskOk(cfg, s, i); }
  }

  lemma MarkWorkers(cfg: Config, s: System, id: string, m: Mark, db: Db)
    requires WorkersOk(s) && HandedOk(s) && id in s.store
    ensures WorkersOk(WithMark(s, id, m, db)) && HandedOk(WithMark(s, id, m, db))
  {
    var t := WithMark(s, id, m, db);
    forall w ensures WorkerOk(t, At(t, w)) { assert WorkerOk(s, At(s, w)); }
  }

  // -------------------------------------------------------------- every step

  /** Claiming: success means the task was pending, so nobody else can hold it. */
  lemma ClaimStep(cfg: Config, s: System, w: nat, c: Choice)
    requires !cfg.leaky && Inv(cfg, s) && At(s, w).Claiming?
    ensures Inv(cfg, StepWorker(cfg, s, w, c))
  {
    hide TaskOk, Lifecycle, Last, ProducersOk, OneCallPerTask, HandedOk, TasksOk, UniqueRequests;
    var p := At(s, w);
    var id := p.id;
    assert WorkerOk(s, p);
    var reply := ReplyTo(cfg.leaky, s.store, id, MarkRunning, c.db);
    var t := WithMark(s, id, MarkRunning, c.db);
    MarkKeeps(cfg, s, id, MarkRunning, c.db);
    MarkFacts(cfg.leaky, s.store, id, MarkRunning, c.db);
    PendingIsUntouched(cfg, s, id);
    forall v, i | v != w && Holds(At(t, v), i)
      ensures !Holds(AfterClaim(cfg, id, p.attempt, reply), i)
    {
      assert WorkerOk(s, At(s, v));
    }
    MoveWorker(cfg, t, w, AfterClaim(cfg, id, p.attempt, reply));
  }

  lemma PendingIsUntouched(cfg: Config, s: System, id: string)
    requires TasksOk(cfg, s)
    ensures id !in s.store || s.store[id].status == Pending ==> s.executed[id] == 0 && s.finished[id] == 0
  {
    assert TaskOk(cfg, s, id);
  }

  /** Where a holder's mark leads: to a state about the same task that the marked system allows. */
  lemma HolderNext(cfg: Config, s: System, p: Worker, c: Choice)
    requires !cfg.leaky && TasksOk(cfg, s) && WorkerOk(s, p) && (p.Failing? || p.Succeeding? || p.SuccessLost?)
    ensures var e := CallOf(cfg, s.store, p, c);
            && e.Marks? && e.id == p.id && Advance(cfg, p, e).Some?
            && WorkerOk(WithMark(s, p.id, e.mark, c.db), Advance(cfg, p, e).value)
            && forall i :: Holds(Advance(cfg, p, e).value, i) ==> i == p.id
  {
    hide TaskOk, TasksOk, Grown;
    var e := CallOf(cfg, s.store, p, c);
    MarkFacts(cfg.leaky, s.store, p.id, e.mark, c.db);
    IdIsKept(cfg, s, p.id, e.mark, c.db);
  }

  /** The marks made after the claim, by the worker that holds it. */
  lemma HolderMarkStep(cfg: Config, s: System, w: nat, c: Choice)
    requires !cfg.leaky && Inv(cfg, s)
    requires At(s, w).Failing? || At(s, w).Succeeding? || At(s, w).SuccessLost?
    ensures Inv(cfg, StepWorker(cfg, s, w, c))
  {
    hide TaskOk, ProducersOk, OneCallPerTask, HandedOk, TasksOk, UniqueRequests, CallOf, Advance, WithMark;
    var p := At(s, w);
    assert WorkerOk(s, p);
    var e := CallOf(cfg, s.store, p, c);
    HolderNext(cfg, s, p, c);
    var t := WithMark(s, p.id, e.mark, c.db);
    MarkKeeps(cfg, s, p.id, e.mark, c.db);
    MarkFrame(s, p.id, e.mark, c.db);
    var next := Advance(cfg, p, e).value;
    forall v, i | v != w && Holds(At(t, v), i)
      ensures !Holds(next, i)
    {
      assert At(t, v) == At(s, v) && Holds(At(s, w), p.id);
    }
    MoveWorker(cfg, t, w, next);
  }

  /** A mark changes only the stored task and its history. */
  lemma MarkFrame(s: System, id: string, m: Mark, db: Db)
    ensures var t := WithMark(s, id, m, db); t == s.(store := t.store, history := t.history)
  {
  }

  /** A call changes no worker, and of the store only its own task. */
  lemma ProducerFrame(cfg: Config, s: System, call: nat, c: Choice)
    ensures var t := StepProducer(cfg, s, call, c);
            && t.workers == s.workers && t.executed == s.executed
            && (t.store == s.store
                || (call in s.producers && s.producers[call].Creating? && t.store == s.store[s.producers[call].task.id := s.producers[call].task])
                || (call in s.producers && s.producers[call].Compensating?
                    && t.store == Marked(s.store, s.producers[call].task.id, MarkFailed(c.text), c.db)))
  {
    hide Grown, Marked, RequestTaken, MaxPushes, FoundRequest;
    if call in s.producers {
      match s.producers[call]
      case Creating(_) =>
      case LookingUp(_) =>
      case Pushing(_, _) =>
      case Compensating(t) => MarkFrame(s, t.id, MarkFailed(c.text), c.db);
      case Returned(_, _) =>
    }
  }

  /** What a worker's step does: its call's effect, and its own next state. */
  lemma WorkerFrame(cfg: Config, s: System, w: nat, c: Choice)
    requires !At(s, w).Idle?
    ensures var t, e := StepWorker(cfg, s, w, c), CallOf(cfg, s.store, At(s, w), c);
            && Advance(cfg, At(s, w), e).Some? && t.workers == s.workers[w := Advance(cfg, At(s, w), e).value]
            && t.store == (if e.Marks? then Marked(s.store, e.id, e.mark, c.db) else s.store)
            && t.executed == if e.Executed? then s.executed + multiset{e.id} else s.executed
  {
    hide Grown, Marked, ReplyTo, AfterClaim, AfterSuccess, Finish;
  }

  lemma IdIsKept(cfg: Config, s: System, id: string, m: Mark, db: Db)
    requires TasksOk(cfg, s) && id in s.store
    ensures id in Marked(s.store, id, m, db) && Marked(s.store, id, m, db)[id].id == id
  {
    assert TaskOk(cfg, s, id);
  }

  /** Giving up on a claim, and the mark after a failed publication: the state left behind holds nothing. */
  lemma GiveUpStep(cfg: Config, s: System, w: nat, c: Choice)
    requires Inv(cfg, s) && (At(s, w).ClaimLost? || At(s, w).Reporting?)
    ensures Inv(cfg, StepWorker(cfg, s, w, c))
  {
    hide TaskOk, Lifecycle, Last, ProducersOk, OneCallPerTask, HandedOk, TasksOk, UniqueRequests;
    var p := At(s, w);
    assert WorkerOk(s, p);
    MarkKeeps(cfg, s, p.id, MarkFailed(c.text), c.db);
    MoveWorker(cfg, WithMark(s, p.id, MarkFailed(c.text), c.db), w, Acking(p.id, false));
  }

  /** Sleeping, acknowledging and reading change nothing but the worker itself. */
  lemma QuietStep(cfg: Config, s: System, w: nat, c: Choice)
    requires !cfg.leaky && Inv(cfg, s)
    requires At(s, w).ClaimPause? || At(s, w).SuccessPause? || At(s, w).Acking? || At(s, w).Reading?
    ensures Inv(cfg, StepWorker(cfg, s, w, c))
  {
    hide TaskOk, Lifecycle, Last, ProducersOk, OneCallPerTask, HandedOk, TasksOk, UniqueRequests;
    var p := At(s, w);
    assert WorkerOk(s, p);
    var next := Advance(cfg, p, CallOf(cfg, s.store, p, c)).value;
    assert forall v, i :: v != w && Holds(At(s, v), i) ==> !Holds(p, i);
    if p.Reading? {
      IdIsKept(cfg, s, p.id, MarkRunning, BreaksBefore);
    }
    MoveWorker(cfg, s, w, next);
  }

  /** What a spent claim leaves of the invariant, when only counters and one worker change. */
  lemma CountersKeep(cfg: Config, s: System, t: System, w: nat, next: Worker)
    requires Inv(cfg, s) && TasksOk(cfg, t) && WorkerOk(t, next)
    requires t == s.(executed := t.executed, finished := t.finished, handed := t.handed, workers := s.workers[w := next])
    requires HandedOk(t)
    requires !At(s, w).Idle? && Holds(At(s, w), At(s, w).id)
    requires forall i :: Holds(next, i) ==> i == At(s, w).id
    requires forall i :: i != At(s, w).id ==> t.executed[i] == s.executed[i] && t.finished[i] == s.finished[i]
    ensures Inv(cfg, t)
  {
    hide TaskOk, UniqueRequests, HandedOk;
    var id := At(s, w).id;
    forall v ensures WorkerOk(t, At(t, v)) {
      assert WorkerOk(s, At(s, v));
      assert v != w ==> At(t, v) == At(s, v) && !Holds(At(s, v), id);
    }
    forall u, v, i | Holds(At(t, u), i) && Holds(At(t, v), i) ensures u == v {
      assert Holds(At(s, u), i) && Holds(At(s, v), i);
    }
    forall d | d in t.producers ensures ProducerOk(cfg, t, t.producers[d]) { assert ProducerOk(cfg, s, s.producers[d]); }
  }

  /** Execution: the claim is spent, once. */
  lemma ExecuteStep(cfg: Config, s: System, w: nat, c: Choice)
    requires Inv(cfg, s) && At(s, w).Executing?
    ensures Inv(cfg, StepWorker(cfg, s, w, c))
  {
    hide Lifecycle, Last, OneCallPerTask, UniqueRequests, MaxPushes, HandedOk;
    var p := At(s, w);
    assert WorkerOk(s, p);
    var next := Advance(cfg, p, CallOf(cfg, s.store, p, c)).value;
    var t := s.(executed := s.executed + multiset{p.id}, workers := s.workers[w := next]);
    forall i ensures TaskOk(cfg, t, i) { assert TaskOk(cfg, s, i); }
    HandedTransfers(s, t);
    CountersKeep(cfg, s, t, w, next);
  }

  /** onFinish: the claim is over, and the task handed out is the stored, settled one. */
  lemma FinishStep(cfg: Config, s: System, w: nat, c: Choice)
    requires Inv(cfg, s) && At(s, w).Finishing?
    ensures Inv(cfg, StepWorker(cfg, s, w, c))
  {
    hide Lifecycle, Last, OneCallPerTask, UniqueRequests, MaxPushes, HandedOk;
    var p := At(s, w);
    assert WorkerOk(s, p);
    var next := Advance(cfg, p, CallOf(cfg, s.store, p, c)).value;
    var t := s.(finished := s.finished + multiset{p.id}, handed := s.handed + {p.done}, workers := s.workers[w := next]);
    forall i ensures TaskOk(cfg, t, i) { assert TaskOk(cfg, s, i); }
    OneMoreHanded(s, t, p.done);
    CountersKeep(cfg, s, t, w, next);
  }

  lemma OneMoreHanded(s: System, t: System, done: Task)
    requires HandedOk(s) && t.handed == s.handed + {done} && t.store == s.store && Settled(s, done)
    ensures HandedOk(t)
  {
  }

  lemma WorkerStepInv(cfg: Config, s: System, w: nat, c: Choice)
    requires !cfg.leaky && Inv(cfg, s)
    ensures Inv(cfg, StepWorker(cfg, s, w, c))
  {
    hide Inv, CallOf, Advance, Effect;
    var p := At(s, w);
    if p.Claiming? { ClaimStep(cfg, s, w, c); }
    else if p.Failing? || p.Succeeding? || p.SuccessLost? { HolderMarkStep(cfg, s, w, c); }
    else if p.ClaimLost? || p.Reporting? { GiveUpStep(cfg, s, w, c); }
    else if p.Executing? { ExecuteStep(cfg, s, w, c); }
    else if p.Finishing? { FinishStep(cfg, s, w, c); }
    else if !p.Idle? { QuietStep(cfg, s, w, c); }
  }

  // ------------------------------------------------------------ producer steps

  /** Replacing one call's state by a state of the same task. */
  lemma MoveProducer(cfg: Config, s: System, call: nat, next: Producer)
    requires Inv(cfg, s) && call in s.producers && next.task.id == s.producers[call].task.id && ProducerOk(cfg, s, next)
    ensures Inv(cfg, s.(producers := s.producers[call := next]))
  {
    hide Lifecycle, Last, UniqueRequests, MaxPushes, Holds, HandedOk;
    var t := s.(producers := s.producers[call := next]);
    forall i ensures TaskOk(cfg, t, i) { assert TaskOk(cfg, s, i); }
    assert forall w :: At(t, w) == At(s, w);
    forall w ensures WorkerOk(t, At(t, w)) { assert WorkerOk(s, At(s, w)); }
    HandedTransfers(s, t);
    forall d | d in t.producers ensures ProducerOk(cfg, t, t.producers[d]) { if d != call { assert ProducerOk(cfg, s, s.producers[d]); } }
  }

  lemma HandedTransfers(s: System, t: System)
    requires HandedOk(s) && t.handed == s.handed && t.store == s.store
    ensures HandedOk(t)
  {
  }

  lemma CreateInv(cfg: Config, s: System, call: nat, t: Task, db: Db)
    requires Inv(cfg, s) && call in s.producers && s.producers[call] == Creating(t) && !RequestTaken(s.store, t)
    ensures Inv(cfg, s.(store := s.store[t.id := t], history := s.history[t.id := [t.status]],
                        producers := s.producers[call := if db == Works then Pushing(t, 1) else Returned(t, None)]))
  {
    assert ProducerOk(cfg, s, s.producers[call]);
    var u := s.(store := s.store[t.id := t], history := s.history[t.id := [t.status]]);
    assert TaskOk(cfg, s, t.id);
    forall i ensures TaskOk(cfg, u, i) { assert TaskOk(cfg, s, i); }
    assert forall w :: At(u, w) == At(s, w);
    forall w ensures WorkerOk(u, At(u, w)) { assert WorkerOk(s, At(s, w)); }
    forall x | x in u.handed ensures Settled(u, x) { assert Settled(s, x); }
    CreateUnique(cfg, s, t);
    forall d | d in u.producers && d != call ensures ProducerOk(cfg, u, u.producers[d]) {
      assert ProducerOk(cfg, s, s.producers[d]);
    }
    CreateProducer(cfg, s, u, call, if db == Works then Pushing(t, 1) else Returned(t, None));
  }

  lemma CreateUnique(cfg: Config, s: System, t: Task)
    requires TasksOk(cfg, s) && UniqueRequests(s.store) && !RequestTaken(s.store, t) && t.id !in s.store && t.requestId != ""
    ensures UniqueRequests(s.store[t.id := t])
  {
    var u := s.store[t.id := t];
    forall a | a in s.store ensures s.store[a].requestId != t.requestId {
      assert TaskOk(cfg, s, a);
    }
  }

  /** After the insert, the creating call's old state no longer fits; its new state does. */
  lemma CreateProducer(cfg: Config, s: System, u: System, call: nat, next: Producer)
    requires TasksOk(cfg, u) && WorkersOk(u) && Exclusive(u) && UniqueRequests(u.store) && HandedOk(u)
    requires OneCallPerTask(u) && call in u.producers && next.task.id == u.producers[call].task.id
    requires forall d :: d in u.producers && d != call ==> ProducerOk(cfg, u, u.producers[d])
    requires ProducerOk(cfg, u, next)
    ensures Inv(cfg, u.(producers := u.producers[call := next]))
  {
    hide Lifecycle, Last, UniqueRequests, MaxPushes, Holds, HandedOk;
    var t := u.(producers := u.producers[call := next]);
    forall i ensures TaskOk(cfg, t, i) { assert TaskOk(cfg, u, i); }
    assert forall w :: At(t, w) == At(u, w);
    forall w ensures WorkerOk(t, At(t, w)) { assert WorkerOk(u, At(u, w)); }
    HandedTransfers(u, t);
    forall d | d in t.producers ensures ProducerOk(cfg, t, t.producers[d]) { if d != call { assert ProducerOk(cfg, u, u.producers[d]); } }
  }

  lemma PushInv(cfg: Config, s: System, call: nat, c: Choice)
    requires Inv(cfg, s) && call in s.producers && s.producers[call].Pushing?
    ensures Inv(cfg, StepProducer(cfg, s, call, c))
  {
    hide Lifecycle, Last, UniqueRequests, Holds, HandedOk, TaskOk, ProducerOk;
    var u := StepProducer(cfg, s, call, c);
    assert ProducerOk(cfg, s, s.producers[call]);
    forall i ensures TaskOk(cfg, u, i) { assert TaskOk(cfg, s, i); PushTask(cfg, s, call, c, i); }
    assert forall w :: At(u, w) == At(s, w);
    forall w ensures WorkerOk(u, At(u, w)) { assert WorkerOk(s, At(s, w)); }
    HandedTransfers(s, u);
    forall d | d in u.producers ensures ProducerOk(cfg, u, u.producers[d]) {
      assert ProducerOk(cfg, s, s.producers[d]);
      PushProducer(cfg, s, call, c, d);
    }
  }

  lemma PushTask(cfg: Config, s: System, call: nat, c: Choice, i: string)
    requires call in s.producers && s.producers[call].Pushing? && ProducerOk(cfg, s, s.producers[call]) && TaskOk(cfg, s, i)
    ensures TaskOk(cfg, StepProducer(cfg, s, call, c), i)
  {
  }

  lemma PushProducer(cfg: Config, s: System, call: nat, c: Choice, d: nat)
    requires call in s.producers && s.producers[call].Pushing? && ProducerOk(cfg, s, s.producers[call])
    requires d in s.producers && ProducerOk(cfg, s, s.producers[d])
    requires d != call ==> s.producers[d].task.id != s.producers[call].task.id
    ensures var u := StepProducer(cfg, s, call, c); ProducerOk(cfg, u, u.producers[d])
  {
  }

  lemma SubmitInv(cfg: Config, s: System, call: nat, requestId: string, taskId: string)
    requires Inv(cfg, s) && call !in s.producers && taskId !in s.issued && GoTrim(taskId) != ""
    ensures Inv(cfg, s.(issued := s.issued + {taskId}, producers := s.producers[call := Creating(NewTask(requestId, taskId))]))
  {
    hide Lifecycle, Last, UniqueRequests, MaxPushes, Holds, HandedOk, GoTrim;
    var u := s.(issued := s.issued + {taskId}, producers := s.producers[call := Creating(NewTask(requestId, taskId))]);
    assert TaskOk(cfg, s, taskId);
    forall i ensures TaskOk(cfg, u, i) { assert TaskOk(cfg, s, i); }
    assert forall w :: At(u, w) == At(s, w);
    forall w ensures WorkerOk(u, At(u, w)) { assert WorkerOk(s, At(s, w)); }
    HandedTransfers(s, u);
    forall d | d in u.producers ensures ProducerOk(cfg, u, u.producers[d]) {
      if d != call { assert ProducerOk(cfg, s, s.producers[d]); }
    }
    forall c, d | c in u.producers && d in u.producers && u.producers[c].task.id == u.producers[d].task.id ensures c == d {
      if c in s.producers { assert ProducerOk(cfg, s, s.producers[c]); }
      if d in s.producers { assert ProducerOk(cfg, s, s.producers[d]); }
    }
  }

  /** A compensating mark on a task that was never delivered changes nothing: the task is still pending. */
  lemma CompensationIsRefused(cfg: Config, s: System, call: nat, message: string, db: Db)
    requires Inv(cfg, s) && call in s.producers && s.producers[call].Compensating?
    ensures var id := s.producers[call].task.id;
            id in s.store && s.tried[id] == MaxPushes(cfg) && s.pushed[id] == 0
            && (id !in s.delivered ==>
                  s.store[id].status == Pending && Marked(s.store, id, MarkFailed(message), db) == s.store
                  && (db != BreaksBefore ==> ReplyTo(cfg.leaky, s.store, id, MarkFailed(message), db).error == Some(AlreadyStarted)))
  {
    var id := s.producers[call].task.id;
    assert ProducerOk(cfg, s, s.producers[call]) && TaskOk(cfg, s, id);
    MarkFacts(cfg.leaky, s.store, id, MarkFailed(message), db);
  }

  lemma CompensateInv(cfg: Config, s: System, call: nat, c: Choice)
    requires Inv(cfg, s) && call in s.producers && s.producers[call].Compensating?
    ensures Inv(cfg, StepProducer(cfg, s, call, c))
  {
    hide TaskOk, WorkerOk, Lifecycle, Last, UniqueRequests, MaxPushes, Holds, HandedOk, Inv;
    var t := s.producers[call].task;
    CompensationIsRefused(cfg, s, call, c.text, c.db);
    MarkKeeps(cfg, s, t.id, MarkFailed(c.text), c.db);
    var u := WithMark(s, t.id, MarkFailed(c.text), c.db);
    ReturnedOk(cfg, u, call, t);
    MoveProducer(cfg, u, call, Returned(t, None));
  }

  lemma ReturnedOk(cfg: Config, s: System, call: nat, t: Task)
    requires Inv(cfg, s) && call in s.producers && s.producers[call].task == t
    ensures ProducerOk(cfg, s, s.producers[call]) && ProducerOk(cfg, s, Returned(t, None))
  {
  }

  lemma ProducerStepInv(cfg: Config, s: System, call: nat, c: Choice)
    requires Inv(cfg, s)
    ensures Inv(cfg, StepProducer(cfg, s, call, c))
  {
    hide Inv, RequestTaken, MaxPushes;
    if call in s.producers {
      var p := s.producers[call];
      ReturnedOk(cfg, s, call, p.task);
      match p
      case Creating(t) =>
        if c.db == BreaksBefore || t.id in s.store {
          MoveProducer(cfg, s, call, Returned(t, None));
        } else if RequestTaken(s.store, t) {
          MoveProducer(cfg, s, call, LookingUp(t));
        } else {
          CreateInv(cfg, s, call, t, c.db);
        }
      case LookingUp(t) => MoveProducer(cfg, s, call, Returned(t, FoundRequest(s.store, t.requestId, c)));
      case Pushing(_, _) => PushInv(cfg, s, call, c);
      case Compensating(_) => CompensateInv(cfg, s, call, c);
      case Returned(_, _) =>
    }
  }

  lemma StepInv(cfg: Config, s: System, a: Action)
    requires !cfg.leaky && Inv(cfg, s)
    ensures Inv(cfg, Step(cfg, s, a))
  {
    hide TasksOk, Exclusive, UniqueRequests, HandedOk, ProducersOk, OneCallPerTask, WorkersOk, StepWorker, StepProducer;
    match a
    case Submit(call, requestId, taskId) =>
      if call !in s.producers && taskId !in s.issued && GoTrim(taskId) != "" { SubmitInv(cfg, s, call, requestId, taskId); }
    case ProducerStep(call, c) => ProducerStepInv(cfg, s, call, c);
    case Pop(w, id) => if At(s, w).Idle? && id in s.delivered { MoveWorker(cfg, s, w, Claiming(id, 0)); }
    case WorkerStep(w, c) => WorkerStepInv(cfg, s, w, c);
    case WorkerDies(w) => MoveWorker(cfg, s, w, Idle);
  }

  lemma {:induction false} RunInv(cfg: Config, s: System, actions: seq<Action>)
    requires !cfg.leaky && Inv(cfg, s)
    ensures Inv(cfg, Run(cfg, s, actions))
    decreases |actions|
  {
    hide Inv, Step;
    if actions != [] {
      StepInv(cfg, s, actions[0]);
      RunInv(cfg, Step(cfg, s, actions[0]), actions[1..]);
    }
  }
}
