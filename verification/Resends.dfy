/** How often a request can be sent: only a marked request, or one at its end, has a bound on its further sends. */
module Resends {
  import opened Basics
  import opened TokenRefresh

  /** The step hands the request to the network: for the first time, with a new token, or after waking. */
  predicate Sends(c: Client, a: Action, q: int) {
    var d := Step(c, a);
    q in d.requests && d.requests[q].phase.Sent? && !(q in c.requests && c.requests[q].phase.Sent?)
  }

  function SendCount(c: Client, actions: seq<Action>, q: int): nat
    decreases |actions|
  {
    if actions == [] then 0
    else (if Sends(c, actions[0], q) then 1 else 0) + SendCount(Step(c, actions[0]), actions[1..], q)
  }

  lemma OneStep(c: Client, a: Action, q: int)
    ensures Run(c, [a]) == Step(c, a) && SendCount(c, [a], q) == if Sends(c, a, q) then 1 else 0
  {
    hide Step, Sends;
    assert Run(Step(c, a), []) == Step(c, a) && SendCount(Step(c, a), [], q) == 0;
  }

  lemma {:induction false} InTwo(c: Client, first: seq<Action>, later: seq<Action>, q: int)
    ensures Run(c, first + later) == Run(Run(c, first), later)
    ensures SendCount(c, first + later, q) == SendCount(c, first, q) + SendCount(Run(c, first), later, q)
    decreases |first|
  {
    hide Step, Sends;
    if first == [] {
      assert first + later == later;
    } else {
      assert (first + later)[0] == first[0] && (first + later)[1..] == first[1..] + later;
      InTwo(Step(c, first[0]), first[1..], later, q);
    }
  }

  // ------------------------------------------------------------------ bounded

  /** The request is marked, at its end, or was woken by a failed refresh. */
  predicate Ending(r: Request) { r.retried || r.phase.Done? || r.phase == Woken(None) }

  /** The sends a request at its end still has: one while it waits for the refresh it started. */
  function Left(r: Request): nat { if r.phase.Refreshing? then 1 else 0 }

  lemma EndingStep(c: Client, a: Action, q: int)
    requires Inv(c) && q in c.requests && Ending(c.requests[q])
    ensures var d := Step(c, a);
            && q in d.requests && Ending(d.requests[q])
            && (if Sends(c, a, q) then 1 else 0) + Left(d.requests[q]) <= Left(c.requests[q])
  {
    hide QueueOk, Settled;
    assert RequestOk(c, q);
    if a.RefreshAnswer? && CanAnswer(c, a.round) {
      AnswerReachesEveryone(c, a.round, a.a, q);
      AnswerKeepsMarks(c, a.round, a.a, q);
    }
  }

  lemma {:induction false} EndingRun(c: Client, more: seq<Action>, q: int)
    requires Inv(c) && q in c.requests && Ending(c.requests[q])
    ensures SendCount(c, more, q) <= Left(c.requests[q])
    decreases |more|
  {
    hide Inv, Sends, Step, Ending, Left;
    if more != [] {
      EndingStep(c, more[0], q);
      StepInv(c, more[0]);
      EndingRun(Step(c, more[0]), more[1..], q);
    }
  }

  // ---------------------------------------------------------------- unbounded

  lemma {:induction false} UnusedId(used: set<int>) returns (k: int)
    ensures forall i :: i in used ==> i < k
    decreases |used|
  {
    if i :| i in used {
      var rest := UnusedId(used - {i});
      k := if rest <= i then i + 1 else rest;
      forall j | j in used ensures j < k { assert j == i || j in used - {i}; }
    } else {
      k := 0;
    }
  }

  /** How many events stand between an unmarked request and its next send. */
  function Distance(c: Client, q: int): nat
    requires q in c.requests
  {
    var p := c.requests[q].phase;
    if p.Woken? then 1 else if p.Parked? then 2 else if c.isRefreshing then 3 else 4
  }

  predicate Live(c: Client, q: int) { q in c.requests && !Ending(c.requests[q]) }

  const NEW_TOKENS := Fresh("access", "refresh")

  /** Another request expires first, so that the request will be parked and not marked. */
  lemma OthersExpiry(c: Client, q: int) returns (actions: seq<Action>)
    requires Inv(c) && Live(c, q) && c.requests[q].phase.Sent? && !c.isRefreshing
    ensures var d := Run(c, actions);
            Live(d, q) && d.requests[q].phase.Sent? && d.isRefreshing && SendCount(c, actions, q) == 0
  {
    hide Inv;
    var k := UnusedId(c.requests.Keys);
    var a1, a2, a3 := LogIn("access", "refresh"), Send(k), Receive(k, Expired);
    actions := [a1] + ([a2] + [a3]);
    OneStep(c, a1, q);
    OneStep(Step(c, a1), a2, q);
    OneStep(Step(Step(c, a1), a2), a3, q);
    InTwo(c, [a1], [a2] + [a3], q);
    InTwo(Step(c, a1), [a2], [a3], q);
  }

  /** While a request is parked, a refresh is in flight that can be answered. */
  lemma ParkedWaits(c: Client, q: int)
    requires Inv(c) && q in c.requests && c.requests[q].phase.Parked?
    ensures c.isRefreshing && c.rounds > 0 && CanAnswer(c, c.rounds - 1)
  {
    QueueIsSettleable(c);
    assert RequestOk(c, q) && TicketOk(c, c.requests[q].phase.ticket);
  }

  /** Some events bring an unmarked request one stage nearer to its next send. */
  lemma Nearer(c: Client, q: int) returns (actions: seq<Action>)
    requires Inv(c) && Live(c, q) && !c.requests[q].phase.Woken?
    ensures var d := Run(c, actions);
            Live(d, q) && Distance(d, q) < Distance(c, q) && SendCount(c, actions, q) == 0
  {
    hide TicketOk, QueueOk, Answered, Run, SendCount;
    assert RequestOk(c, q);
    if c.requests[q].phase.Parked? {
      ParkedWaits(c, q);
      var a := RefreshAnswer(c.rounds - 1, NEW_TOKENS);
      AnswerReachesEveryone(c, c.rounds - 1, NEW_TOKENS, q);
      AnswerKeepsMarks(c, c.rounds - 1, NEW_TOKENS, q);
      OneStep(c, a, q);
      actions := [a];
    } else if c.isRefreshing {
      OneStep(c, Receive(q, Expired), q);
      actions := [Receive(q, Expired)];
    } else {
      actions := OthersExpiry(c, q);
    }
  }

  /** An unmarked request can be sent once more, and stays unmarked. */
  lemma {:induction false} OnceMore(c: Client, q: int) returns (actions: seq<Action>)
    requires Inv(c) && Live(c, q)
    ensures Live(Run(c, actions), q) && SendCount(c, actions, q) == 1
    decreases Distance(c, q)
  {
    hide Inv, Run, SendCount;
    if c.requests[q].phase.Woken? {
      actions := [Resume(q)];
      OneStep(c, Resume(q), q);
    } else {
      var first := Nearer(c, q);
      RunInv(c, first);
      var rest := OnceMore(Run(c, first), q);
      InTwo(c, first, rest, q);
      actions := first + rest;
    }
  }

  lemma {:induction false} ManyMore(c: Client, q: int, n: nat) returns (actions: seq<Action>)
    requires Inv(c) && Live(c, q)
    ensures Live(Run(c, actions), q) && SendCount(c, actions, q) == n
    decreases n
  {
    hide Inv, Run, SendCount, Live;
    if n == 0 {
      actions := [];
      NoSteps(c, q);
    } else {
      var first := OnceMore(c, q);
      RunInv(c, first);
      var rest := ManyMore(Run(c, first), q, n - 1);
      InTwo(c, first, rest, q);
      actions := first + rest;
    }
  }

  lemma NoSteps(c: Client, q: int)
    ensures Run(c, []) == c && SendCount(c, [], q) == 0
  {
  }

  // ---------------------------------------------------------------- theorems

  /** For every number there is a run on which one request is sent that often. */
  lemma SentAnyNumberOfTimes(q: int, n: nat) returns (actions: seq<Action>)
    ensures SendCount(EMPTY, actions, q) == n
  {
    hide Inv, Run, SendCount;
    NoSteps(EMPTY, q);
    EmptyInv();
    if n == 0 {
      actions := [];
    } else {
      OneStep(EMPTY, Send(q), q);
      RunInv(EMPTY, [Send(q)]);
      var rest := ManyMore(Step(EMPTY, Send(q)), q, n - 1);
      InTwo(EMPTY, [Send(q)], rest, q);
      actions := [Send(q)] + rest;
    }
  }

  ghost predicate BoundedBy(c: Client, q: int, bound: nat) {
    forall more: seq<Action> :: SendCount(c, more, q) <= bound
  }

  /**
   * In every reachable state: some number bounds the further sends of a request over all continuations if and only
   * if it is marked, done, or woken by a failed refresh; and then it is sent at most once more.
   */
  lemma SendsAreBoundedIff(actions: seq<Action>, q: int)
    requires q in Run(EMPTY, actions).requests
    ensures var c := Run(EMPTY, actions);
            var r := c.requests[q];
            && ((exists bound: nat :: BoundedBy(c, q, bound)) <==> r.retried || r.phase.Done? || r.phase == Woken(None))
            && ((exists bound: nat :: BoundedBy(c, q, bound)) ==> BoundedBy(c, q, 1))
  {
    hide Inv, Run, SendCount;
    EmptyInv();
    RunInv(EMPTY, actions);
    var c := Run(EMPTY, actions);
    if Ending(c.requests[q]) {
      forall more: seq<Action> ensures SendCount(c, more, q) <= 1 { EndingRun(c, more, q); }
      assert BoundedBy(c, q, 1);
    } else {
      forall bound: nat ensures !BoundedBy(c, q, bound) {
        var more := ManyMore(c, q, bound + 1);
        assert SendCount(c, more, q) > bound;
      }
    }
  }
}
