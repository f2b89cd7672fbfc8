/** Whose text a task carries: the one that its only execution returned. */
module TaskResults {
  import opened Basics
  import opened Text
  import opened TaskStore
  import opened TaskSystem
  import opened TaskInvariant
  import opened TaskRuns

  /** What an execution of the task returns in this step: its result or its error. */
  function ReturnedIn(s: System, a: Action, id: string): seq<Outcome> {
    if a.WorkerStep? && At(s, a.worker) == Executing(id)
    then [if a.choice.crash then Crash(a.choice.text) else Result(a.choice.text)]
    else []
  }

  /** What the executions of the task return during a run, in order. */
  function Returns(cfg: Config, s: System, actions: seq<Action>, id: string): seq<Outcome>
    decreases |actions|
  {
    if actions == [] then [] else ReturnedIn(s, actions[0], id) + Returns(cfg, Step(cfg, s, actions[0]), actions[1..], id)
  }

  /** A worker about to mark the task carries what the execution returned. */
  predicate CarriesIt(p: Worker, id: string, past: seq<Outcome>) {
    match p
    case Succeeding(i, r, _) => i == id ==> past == [Result(r)]
    case SuccessPause(i, r, _) => i == id ==> past == [Result(r)]
    case Failing(i, m) => i == id ==> past == [Crash(m)]
    case _ => true
  }

  predicate RowCarriesIt(s: Store, id: string, past: seq<Outcome>) {
    id in s && s[id].status == Succeeded ==> past == [Result(s[id].result)] && s[id].errorMessage == ""
  }

  ghost predicate Faithful(s: System, id: string, past: seq<Outcome>) {
    && |past| == s.executed[id] && RowCarriesIt(s.store, id, past)
    && forall w :: CarriesIt(At(s, w), id, past)
  }

  // -------------------------------------------------------------------- steps

  lemma MarkCarries(s: Store, p: Worker, m: Mark, db: Db, id: string, past: seq<Outcome>)
    requires RowCarriesIt(s, id, past) && !p.Idle? && CarriesIt(p, id, past)
    requires m.MarkSucceeded? ==> p.Succeeding? && m.result == p.result
    ensures RowCarriesIt(Marked(s, p.id, m, db), id, past)
  {
    if p.id in s && db != BreaksBefore { MarkWrites(false, s, p.id, m, db); }
  }

  /** Only a worker that holds the result marks a task succeeded, and with that result. */
  lemma CallMarks(cfg: Config, s: Store, p: Worker, c: Choice)
    requires !p.Idle?
    ensures var e := CallOf(cfg, s, p, c);
            && (e.Marks? ==> e.id == p.id && (e.mark.MarkSucceeded? ==> p.Succeeding? && e.mark.result == p.result))
            && (e.Executed? <==> p.Executing?)
            && (p.Executing? ==> e.id == p.id && e.outcome == if c.crash then Crash(c.text) else Result(c.text))
  {
    hide ReplyTo;
  }

  /** The next state carries what this one carries, and after an execution what that returned. */
  lemma NextCarries(cfg: Config, p: Worker, e: Event, id: string, past: seq<Outcome>)
    requires CarriesIt(p, id, past) && (p.Executing? && p.id == id ==> past == [])
    ensures match Advance(cfg, p, e)
            case None => true
            case Some(next) => CarriesIt(next, id, past + if p == Executing(id) && e.Executed? then [e.outcome] else [])
  {
    assert past + [] == past;
    assert [] + (if e.Executed? then [e.outcome] else []) == if e.Executed? then [e.outcome] else [];
  }

  lemma WorkerFaithful(cfg: Config, s: System, w: nat, c: Choice, id: string, past: seq<Outcome>)
    requires Inv(cfg, s) && Faithful(s, id, past)
    ensures Faithful(StepWorker(cfg, s, w, c), id, past + ReturnedIn(s, WorkerStep(w, c), id))
  {
    hide Inv, CallOf, Advance, CarriesIt, Marked, RowCarriesIt, Effect;
    var p, t := At(s, w), StepWorker(cfg, s, w, c);
    var now := past + ReturnedIn(s, WorkerStep(w, c), id);
    assert past + [] == past;
    if !p.Idle? {
      var e := CallOf(cfg, s.store, p, c);
      WorkerFrame(cfg, s, w, c);
      assert CarriesIt(p, id, past);
      CallMarks(cfg, s.store, p, c);
      if p.Executing? { ExecutorAlone(cfg, s, w, id, past); }
      NextCarries(cfg, p, e, id, past);
      if e.Marks? { MarkCarries(s.store, p, e.mark, c.db, id, past); }
      SameRow(t.store, id, past, now);
      forall v ensures CarriesIt(At(t, v), id, now) {
        assert CarriesIt(At(s, v), id, past);
        if v != w && p == Executing(id) { NotCarrying(At(s, v), id, now); }
      }
    }
  }

  /** When a worker executes the task, nothing was returned yet, and no other worker carries anything. */
  lemma ExecutorAlone(cfg: Config, s: System, w: nat, id: string, past: seq<Outcome>)
    requires Inv(cfg, s) && Faithful(s, id, past) && At(s, w).Executing?
    ensures At(s, w).id == id ==> past == [] && (id in s.store ==> s.store[id].status != Succeeded)
    ensures At(s, w).id == id ==> forall v :: v != w ==> !Carrying(At(s, v), id)
  {
    hide UniqueRequests, HandedOk, ProducersOk, OneCallPerTask, TasksOk;
    assert WorkerOk(s, At(s, w));
    if At(s, w).id == id {
      forall v | v != w ensures !Carrying(At(s, v), id) {
        assert Holds(At(s, w), id) && !Holds(At(s, v), id);
      }
    }
  }

  predicate Carrying(p: Worker, id: string) { (p.Succeeding? || p.SuccessPause? || p.Failing?) && p.id == id }

  lemma NotCarrying(p: Worker, id: string, now: seq<Outcome>)
    requires !Carrying(p, id)
    ensures CarriesIt(p, id, now)
  {
  }

  lemma SameRow(s: Store, id: string, past: seq<Outcome>, now: seq<Outcome>)
    requires RowCarriesIt(s, id, past) && (now == past || (id in s ==> s[id].status != Succeeded))
    ensures RowCarriesIt(s, id, now)
  {
  }

  lemma ProducerFaithful(cfg: Config, s: System, call: nat, c: Choice, id: string, past: seq<Outcome>)
    requires Inv(cfg, s) && Faithful(s, id, past)
    ensures Faithful(StepProducer(cfg, s, call, c), id, past)
  {
    hide TasksOk, WorkersOk, Exclusive, UniqueRequests, HandedOk, OneCallPerTask, CarriesIt, StepProducer, Marked;
    var t := StepProducer(cfg, s, call, c);
    ProducerFrame(cfg, s, call, c);
    if call in s.producers {
      var i := s.producers[call].task.id;
      assert ProducerOk(cfg, s, s.producers[call]);
      NotCarrying(ClaimLost(i), id, past);
      MarkCarries(s.store, ClaimLost(i), MarkFailed(c.text), c.db, id, past);
    }
    forall w ensures CarriesIt(At(t, w), id, past) { assert At(t, w) == At(s, w); }
  }

  lemma FaithfulStep(cfg: Config, s: System, a: Action, id: string, past: seq<Outcome>)
    requires Inv(cfg, s) && Faithful(s, id, past)
    ensures Faithful(Step(cfg, s, a), id, past + ReturnedIn(s, a, id))
  {
    hide Inv, StepWorker, StepProducer;
    var t := Step(cfg, s, a);
    assert past + [] == past;
    match a
    case WorkerStep(w, c) => WorkerFaithful(cfg, s, w, c, id, past);
    case ProducerStep(call, c) => ProducerFaithful(cfg, s, call, c, id, past);
    case _ => forall w ensures CarriesIt(At(t, w), id, past) { assert CarriesIt(At(s, w), id, past); }
  }

  lemma {:induction false} FaithfulRun(cfg: Config, s: System, actions: seq<Action>, id: string, past: seq<Outcome>)
    requires !cfg.leaky && Inv(cfg, s) && Faithful(s, id, past)
    ensures Faithful(Run(cfg, s, actions), id, past + Returns(cfg, s, actions, id))
    decreases |actions|
  {
    hide Inv, Step, Faithful, ReturnedIn;
    if actions == [] {
      assert past + [] == past;
    } else {
      var now := past + ReturnedIn(s, actions[0], id);
      FaithfulStep(cfg, s, actions[0], id, past);
      StepInv(cfg, s, actions[0]);
      FaithfulRun(cfg, Step(cfg, s, actions[0]), actions[1..], id, now);
      var later := Returns(cfg, Step(cfg, s, actions[0]), actions[1..], id);
      assert now + later == past + (ReturnedIn(s, actions[0], id) + later);
    }
  }

  // ----------------------------------------------------------------- theorems

  /**
   * On every run, a task that is stored as succeeded, and so every such task handed to onFinish, was executed once
   * and carries exactly the text that execution returned; and a worker that is about to mark a task succeeded or
   * failed with the execution's error carries what the execution returned.
   */
  lemma ResultsAreTheExecutions(cfg: Config, actions: seq<Action>, t: Task, w: nat)
    requires !cfg.leaky
    ensures var s := Run(cfg, START, actions);
            && (t in s.handed ==> t.id in s.store && s.store[t.id] == t)
            && (t.id in s.store && s.store[t.id] == t && t.status == Succeeded ==>
                  Returns(cfg, START, actions, t.id) == [Result(t.result)] && t.errorMessage == "")
            && (At(s, w).Succeeding? ==> Returns(cfg, START, actions, At(s, w).id) == [Result(At(s, w).result)])
            && (At(s, w).Failing? ==> Returns(cfg, START, actions, At(s, w).id) == [Crash(At(s, w).message)])
  {
    hide Run, Returns, TaskOk, WorkerOk, UniqueRequests, ProducersOk, OneCallPerTask, Exclusive;
    StartInv(cfg);
    RunInv(cfg, START, actions);
    var s := Run(cfg, START, actions);
    StartFaithful(t.id);
    FaithfulRun(cfg, START, actions, t.id, []);
    assert [] + Returns(cfg, START, actions, t.id) == Returns(cfg, START, actions, t.id);
    if t in s.handed { assert Settled(s, t); }
    if !At(s, w).Idle? {
      var id := At(s, w).id;
      StartFaithful(id);
      FaithfulRun(cfg, START, actions, id, []);
      assert [] + Returns(cfg, START, actions, id) == Returns(cfg, START, actions, id);
      assert CarriesIt(At(s, w), id, Returns(cfg, START, actions, id));
    }
  }

  lemma StartFaithful(id: string)
    ensures Faithful(START, id, [])
  {
  }
}
