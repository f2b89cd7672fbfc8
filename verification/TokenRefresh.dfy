/** The client's response interceptor: one token refresh at a time, with the other expired requests parked. */
module TokenRefresh {
  import opened Basics

  /** A parked request: which request it is, and the refresh it waits for. */
  datatype Ticket = Ticket(req: int, round: nat)

  /** A parked promise resolved with a token, or rejected. */
  datatype Settlement = Settlement(ticket: nat, round: nat, token: Option<string>)

  datatype Phase =
    | Sent
    | Parked(ticket: nat)
    | Refreshing(round: nat)
    | Woken(token: Option<string>)
    | Done(ok: bool)

  /** A request: its _retry flag, where it is, and how often it was sent after the flag was set. */
  datatype Request = Request(retried: bool, phase: Phase, resent: nat)

  /** A response: success, an expired access token, or any other error. */
  datatype Reply = Success | Expired | OtherError

  datatype Answer = Fresh(access: string, refresh: string) | Refused

  /**
   * The module variables and the stored tokens, with the refresh calls in flight and, for the properties, every
   * ticket and settlement so far, the number of refreshes started and the outcome of each that ended.
   */
  datatype Client = Client(isRefreshing: bool, failedQueue: seq<nat>, access: Option<string>, refresh: Option<string>,
                           requests: map<int, Request>, inFlight: map<nat, int>,
                           tickets: seq<Ticket>, settled: seq<Settlement>, rounds: nat, outcomes: map<nat, Option<string>>)

  const EMPTY := Client(false, [], None, None, map[], map[], [], [], 0, map[])

  function SetPhase(c: Client, q: int, p: Phase): Client
    requires q in c.requests
  {
    c.(requests := c.requests[q := c.requests[q].(phase := p)])
  }

  function LoggedOut(c: Client): Client { c.(access := None, refresh := None) }

  function Parking(c: Client, q: int): Client
    requires q in c.requests && c.rounds > 0
  {
    var t := |c.tickets|;
    SetPhase(c, q, Parked(t)).(failedQueue := c.failedQueue + [t], tickets := c.tickets + [Ticket(q, c.rounds - 1)])
  }

  /** The first expired request: it is marked, and starts a refresh if there is a refresh token. */
  function Starting(c: Client, q: int): Client
    requires q in c.requests
  {
    var r := c.requests[q];
    if c.refresh.None? then LoggedOut(c).(requests := c.requests[q := r.(retried := true, phase := Done(false))])
    else c.(isRefreshing := true, requests := c.requests[q := r.(retried := true, phase := Refreshing(c.rounds))],
            inFlight := c.inFlight[c.rounds := q], rounds := c.rounds + 1)
  }

  function Replied(c: Client, q: int, reply: Reply): Client
    requires q in c.requests && (c.isRefreshing ==> c.rounds > 0)
  {
    if reply.Success? then SetPhase(c, q, Done(true))
    else if c.requests[q].retried || !reply.Expired? then SetPhase(c, q, Done(false))
    else if c.isRefreshing then Parking(c, q)
    else Starting(c, q)
  }

  /** processQueue: every parked promise is settled, in the order they were parked. */
  function Settled(c: Client, queue: seq<nat>, round: nat, token: Option<string>): Client
    requires Settleable(c, queue)
    ensures var d := Settled(c, queue, round, token);
            && d == c.(requests := d.requests, settled := d.settled)
            && d.requests.Keys == c.requests.Keys
    decreases |queue|
  {
    if queue == [] then c
    else
      var d, t := Settled(c, queue[..|queue| - 1], round, token), queue[|queue| - 1];
      SetPhase(d, c.tickets[t].req, Woken(token)).(settled := d.settled + [Settlement(t, round, token)])
  }

  predicate Settleable(c: Client, queue: seq<nat>) {
    forall i :: 0 <= i < |queue| ==> queue[i] < |c.tickets| && c.tickets[queue[i]].req in c.requests
  }

  /** The answer to a refresh call, up to and including the finally block. */
  function Answered(c: Client, round: nat, a: Answer): Client
    requires round in c.inFlight && c.inFlight[round] in c.requests && Settleable(c, c.failedQueue)
  {
    var q := c.inFlight[round];
    var token := if a.Fresh? then Some(a.access) else None;
    var d := Settled(c, c.failedQueue, round, token)
             .(failedQueue := [], isRefreshing := false, inFlight := c.inFlight - {round}, outcomes := c.outcomes[round := token]);
    var r := d.requests[q];
    if a.Fresh? then
      d.(access := Some(a.access), refresh := Some(a.refresh),
         requests := d.requests[q := r.(phase := Sent, resent := r.resent + 1)])
    else LoggedOut(d).(requests := d.requests[q := r.(phase := Done(false))])
  }

  datatype Action =
    | LogIn(access: string, refresh: string)
    | Send(q: int)
    | Receive(q: int, reply: Reply)
    | RefreshAnswer(round: nat, a: Answer)
    | Resume(q: int)

  predicate CanReceive(c: Client, q: int) {
    q in c.requests && c.requests[q].phase.Sent? && (c.isRefreshing ==> c.rounds > 0)
  }

  predicate CanAnswer(c: Client, round: nat) {
    round in c.inFlight && c.inFlight[round] in c.requests && Settleable(c, c.failedQueue)
  }

  predicate CanResume(c: Client, q: int) { q in c.requests && c.requests[q].phase.Woken? }

  /** A woken request is sent again with the token, or fails. */
  function Resumed(c: Client, q: int): Client
    requires CanResume(c, q)
  {
    SetPhase(c, q, if c.requests[q].phase.token.Some? then Sent else Done(false))
  }

  /** One event of the client; an event that cannot happen changes nothing. */
  function Step(c: Client, a: Action): Client {
    match a
    case LogIn(access, refresh) => c.(access := Some(access), refresh := Some(refresh))
    case Send(q) => if q in c.requests then c else c.(requests := c.requests[q := Request(false, Sent, 0)])
    case Receive(q, reply) => if CanReceive(c, q) then Replied(c, q, reply) else c
    case RefreshAnswer(round, ans) => if CanAnswer(c, round) then Answered(c, round, ans) else c
    case Resume(q) => if CanResume(c, q) then Resumed(c, q) else c
  }

  function Run(c: Client, actions: seq<Action>): Client
    decreases |actions|
  {
    if actions == [] then c else Run(Step(c, actions[0]), actions[1..])
  }

  // --------------------------------------------------------------- invariant

  predicate RequestOk(c: Client, q: int) {
    q in c.requests ==>
      var r := c.requests[q];
      && r.resent <= 1 && (r.resent == 1 ==> r.retried)
      && match r.phase
         case Sent => r.retried ==> r.resent == 1
         case Parked(t) => !r.retried && |c.settled| <= t < |c.tickets| && c.tickets[t].req == q
         case Refreshing(n) => r.retried && r.resent == 0 && n in c.inFlight && c.inFlight[n] == q
         case Woken(_) => !r.retried
         case Done(_) => true
  }

  predicate TicketOk(c: Client, t: nat) {
    t < |c.tickets| ==>
      if t < |c.settled| then
        && c.settled[t].ticket == t && c.settled[t].round == c.tickets[t].round
        && c.tickets[t].round in c.outcomes && c.outcomes[c.tickets[t].round] == c.settled[t].token
      else
        && c.isRefreshing && c.tickets[t].round == c.rounds - 1
        && c.tickets[t].req in c.requests && c.requests[c.tickets[t].req].phase == Parked(t)
  }

  predicate FlightOk(c: Client) {
    if c.isRefreshing then
      && c.rounds > 0 && c.inFlight.Keys == {c.rounds - 1}
      && c.inFlight[c.rounds - 1] in c.requests
      && c.requests[c.inFlight[c.rounds - 1]].phase == Refreshing(c.rounds - 1)
    else c.inFlight == map[]
  }

  predicate QueueOk(c: Client) {
    && |c.settled| + |c.failedQueue| == |c.tickets|
    && (forall i :: 0 <= i < |c.failedQueue| ==> c.failedQueue[i] == |c.settled| + i)
    && (forall n :: n in c.outcomes ==> n < c.rounds && n !in c.inFlight)
  }

  ghost predicate Inv(c: Client) {
    && (forall q :: RequestOk(c, q)) && (forall t: nat :: TicketOk(c, t)) && FlightOk(c) && QueueOk(c)
  }

  lemma QueueIsSettleable(c: Client)
    requires Inv(c)
    ensures Settleable(c, c.failedQueue)
  {
    forall i | 0 <= i < |c.failedQueue| ensures c.failedQueue[i] < |c.tickets| && c.tickets[c.failedQueue[i]].req in c.requests {
      assert TicketOk(c, c.failedQueue[i]);
    }
  }

  lemma ReplyInv(c: Client, q: int, reply: Reply)
    requires Inv(c) && CanReceive(c, q)
    ensures Inv(Replied(c, q, reply))
  {
    var d := Replied(c, q, reply);
    assert RequestOk(c, q);
    forall p ensures RequestOk(d, p) { assert RequestOk(c, p); }
    forall t: nat ensures TicketOk(d, t) { assert TicketOk(c, t); }
    assert RequestOk(c, if c.isRefreshing then c.inFlight[c.rounds - 1] else q);
  }

  predicate Queued(c: Client, queue: seq<nat>, q: int)
    requires Settleable(c, queue)
  {
    exists i :: 0 <= i < |queue| && c.tickets[queue[i]].req == q
  }

  lemma NoneQueued(c: Client, q: int)
    ensures !Queued(c, [], q)
  {
  }

  lemma QueuedStep(c: Client, front: seq<nat>, last: nat, q: int)
    requires Settleable(c, front) && last < |c.tickets| && c.tickets[last].req in c.requests
    ensures Settleable(c, front + [last])
    ensures Queued(c, front + [last], q) <==> Queued(c, front, q) || c.tickets[last].req == q
  {
    var queue := front + [last];
    if i :| 0 <= i < |front| && c.tickets[front[i]].req == q {
      assert c.tickets[queue[i]].req == q;
    }
    assert queue[|front|] == last;
  }

  /** Settling a queue logs one settlement for each ticket, in order. */
  lemma {:induction false} SettledLog(c: Client, queue: seq<nat>, round: nat, token: Option<string>)
    requires Settleable(c, queue)
    ensures var d := Settled(c, queue, round, token);
            && |d.settled| == |c.settled| + |queue|
            && (forall i :: 0 <= i < |c.settled| ==> d.settled[i] == c.settled[i])
            && (forall i :: 0 <= i < |queue| ==> d.settled[|c.settled| + i] == Settlement(queue[i], round, token))
    decreases |queue|
  {
    if queue != [] {
      SettledLog(c, queue[..|queue| - 1], round, token);
    }
  }

  /** Settling a queue wakes exactly the requests that have a ticket in it. */
  lemma {:induction false} SettledWakes(c: Client, queue: seq<nat>, round: nat, token: Option<string>, q: int)
    requires Settleable(c, queue) && q in c.requests
    ensures var d := Settled(c, queue, round, token);
            && q in d.requests
            && d.requests[q] == if Queued(c, queue, q) then c.requests[q].(phase := Woken(token)) else c.requests[q]
    decreases |queue|
  {
    hide Queued;
    if queue == [] {
      NoneQueued(c, q);
    } else {
      var front, last := queue[..|queue| - 1], queue[|queue| - 1];
      assert queue == front + [last];
      SettledWakes(c, front, round, token, q);
      QueuedStep(c, front, last, q);
    }
  }

  lemma ResumeInv(c: Client, q: int)
    requires Inv(c) && CanResume(c, q)
    ensures Inv(Resumed(c, q))
  {
    var d := Resumed(c, q);
    forall p ensures RequestOk(d, p) { assert RequestOk(c, p); }
    forall t: nat ensures TicketOk(d, t) { assert TicketOk(c, t); }
  }

  lemma SendInv(c: Client, q: int)
    requires Inv(c)
    ensures Inv(Step(c, Send(q)))
  {
    var d := Step(c, Send(q));
    forall p ensures RequestOk(d, p) { assert RequestOk(c, p); }
    forall t: nat ensures TicketOk(d, t) { assert TicketOk(c, t); }
  }

  lemma LogInInv(c: Client, access: string, refresh: string)
    requires Inv(c)
    ensures Inv(Step(c, LogIn(access, refresh)))
  {
    var d := Step(c, LogIn(access, refresh));
    forall p ensures RequestOk(d, p) { assert RequestOk(c, p); }
    forall t: nat ensures TicketOk(d, t) { assert TicketOk(c, t); }
  }

  /** In a valid state a request is woken by the whole queue exactly when it is parked. */
  lemma ParkedIffQueued(c: Client, q: int)
    requires Inv(c) && q in c.requests
    ensures Settleable(c, c.failedQueue) && (c.requests[q].phase.Parked? <==> Queued(c, c.failedQueue, q))
  {
    QueueIsSettleable(c);
    assert RequestOk(c, q);
    if c.requests[q].phase.Parked? {
      var t := c.requests[q].phase.ticket;
      assert c.failedQueue[t - |c.settled|] == t;
    }
    if i :| 0 <= i < |c.failedQueue| && c.tickets[c.failedQueue[i]].req == q {
      assert TicketOk(c, c.failedQueue[i]);
    }
  }

  lemma AnswerRequest(c: Client, round: nat, a: Answer, q: int)
    requires Inv(c) && CanAnswer(c, round)
    ensures RequestOk(Answered(c, round, a), q)
    ensures q in c.requests ==> q in Answered(c, round, a).requests
  {
    hide TicketOk, QueueOk, Settled;
    var token := if a.Fresh? then Some(a.access) else None;
    if q in c.requests {
      SettledWakes(c, c.failedQueue, round, token, q);
      assert RequestOk(c, q);
      ParkedIffQueued(c, q);
    }
  }

  lemma AnswerTicket(c: Client, round: nat, a: Answer, t: nat)
    requires Inv(c) && CanAnswer(c, round)
    ensures TicketOk(Answered(c, round, a), t)
  {
    hide Settled, RequestOk;
    var token := if a.Fresh? then Some(a.access) else None;
    SettledLog(c, c.failedQueue, round, token);
    assert TicketOk(c, t);
    if |c.settled| <= t < |c.tickets| {
      assert c.failedQueue[t - |c.settled|] == t;
    }
  }

  lemma AnswerInv(c: Client, round: nat, a: Answer)
    requires Inv(c) && CanAnswer(c, round)
    ensures Inv(Answered(c, round, a))
  {
    hide Settled, RequestOk, TicketOk;
    var d := Answered(c, round, a);
    var token := if a.Fresh? then Some(a.access) else None;
    SettledLog(c, c.failedQueue, round, token);
    forall q ensures RequestOk(d, q) { AnswerRequest(c, round, a, q); }
    forall t: nat ensures TicketOk(d, t) { AnswerTicket(c, round, a, t); }
  }

  lemma StepInv(c: Client, a: Action)
    requires Inv(c)
    ensures Inv(Step(c, a))
  {
    hide Inv, Replied, Answered, Resumed;
    match a
    case LogIn(access, refresh) => LogInInv(c, access, refresh);
    case Send(q) => SendInv(c, q);
    case Receive(q, reply) => if CanReceive(c, q) { ReplyInv(c, q, reply); }
    case RefreshAnswer(round, ans) => if CanAnswer(c, round) { AnswerInv(c, round, ans); }
    case Resume(q) => if CanResume(c, q) { ResumeInv(c, q); }
  }

  lemma {:induction false} RunInv(c: Client, actions: seq<Action>)
    requires Inv(c)
    ensures Inv(Run(c, actions))
    decreases |actions|
  {
    hide Inv, Step;
    if actions != [] {
      StepInv(c, actions[0]);
      RunInv(Step(c, actions[0]), actions[1..]);
    }
  }

  // ---------------------------------------------------------------- theorems

  lemma EmptyInv()
    ensures Inv(EMPTY)
  {
  }

  /** Between events at most one refresh call is in flight, exactly while isRefreshing, and nothing is parked otherwise. */
  lemma OneRefreshAtATime(actions: seq<Action>)
    ensures var c := Run(EMPTY, actions);
            && |c.inFlight| <= 1 && (c.isRefreshing <==> c.inFlight != map[])
            && (c.failedQueue != [] ==> c.isRefreshing)
  {
    hide Run, RequestOk;
    EmptyInv();
    RunInv(EMPTY, actions);
    var c := Run(EMPTY, actions);
    if c.failedQueue != [] {
      assert TicketOk(c, c.failedQueue[0]);
    }
    if c.isRefreshing {
      assert c.inFlight.Keys == {c.rounds - 1};
      assert |c.inFlight| == |c.inFlight.Keys|;
    }
  }

  /**
   * Each parked promise is settled once, by the refresh it was parked behind and with that refresh's outcome;
   * while no refresh is in flight none is left unsettled.
   */
  lemma SettledExactlyOnce(actions: seq<Action>, t: nat)
    requires t < |Run(EMPTY, actions).tickets|
    ensures var c := Run(EMPTY, actions);
            && (forall i :: 0 <= i < |c.settled| && c.settled[i].ticket == t ==> i == t)
            && (t in c.failedQueue <==> |c.settled| <= t)
            && (!c.isRefreshing ==> t < |c.settled|)
            && (t < |c.settled| ==>
                 && c.settled[t].ticket == t && c.settled[t].round == c.tickets[t].round
                 && c.tickets[t].round in c.outcomes && c.settled[t].token == c.outcomes[c.tickets[t].round])
  {
    hide Run, RequestOk;
    EmptyInv();
    RunInv(EMPTY, actions);
    var c := Run(EMPTY, actions);
    assert TicketOk(c, t);
    forall i | 0 <= i < |c.settled| && c.settled[i].ticket == t ensures i == t { assert TicketOk(c, i); }
    if |c.settled| <= t {
      assert c.failedQueue[t - |c.settled|] == t;
    }
  }

  /** The request that starts a refresh is sent again at most once; without a refresh in flight no request is left waiting. */
  lemma InitiatorRetriesOnce(actions: seq<Action>, q: int)
    requires q in Run(EMPTY, actions).requests
    ensures var c := Run(EMPTY, actions);
            var r := c.requests[q];
            && r.resent <= 1 && (r.resent == 1 ==> r.retried)
            && (r.phase.Parked? || r.phase.Refreshing? ==> c.isRefreshing)
  {
    hide Run, QueueOk;
    EmptyInv();
    RunInv(EMPTY, actions);
    var c := Run(EMPTY, actions);
    assert RequestOk(c, q);
    if c.requests[q].phase.Parked? {
      assert TicketOk(c, c.requests[q].phase.ticket);
    }
  }

  /** The answer to a refresh wakes every parked request with its outcome, resends the initiator or fails it, and empties the queue. */
  lemma AnswerReachesEveryone(c: Client, round: nat, a: Answer, q: int)
    requires Inv(c) && CanAnswer(c, round) && q in c.requests
    ensures var d := Answered(c, round, a);
            && !d.isRefreshing && d.failedQueue == [] && d.inFlight == map[]
            && (c.requests[q].phase.Parked? ==> q in d.requests && d.requests[q].phase == Woken(if a.Fresh? then Some(a.access) else None))
            && (c.requests[q].phase.Refreshing? ==> q in d.requests && d.requests[q].phase == if a.Fresh? then Sent else Done(false))
            && (!c.requests[q].phase.Parked? && !c.requests[q].phase.Refreshing? ==> q in d.requests && d.requests[q] == c.requests[q])
            && (if a.Fresh? then d.access == Some(a.access) && d.refresh == Some(a.refresh)
                else d.access == None && d.refresh == None)
  {
    hide QueueOk, TicketOk, Settled;
    SettledWakes(c, c.failedQueue, round, if a.Fresh? then Some(a.access) else None, q);
    assert RequestOk(c, q);
    ParkedIffQueued(c, q);
  }

  /** The reply to a request that is out, as an event. */
  predicate Gets(c: Client, a: Action, q: int, reply: Reply) { a == Receive(q, reply) && c.requests.Keys >= {q} && c.requests[q].phase.Sent? }

  /**
   * Where each event takes a request that has not ended. It succeeds exactly with a success; it fails exactly with any
   * other error, with an expiry when marked or without a refresh token, with a refused refresh it started, or woken by
   * one; it is parked exactly with an expiry, unmarked, during a refresh, and starts a refresh exactly with one outside.
   */
  lemma PhasesFollowReplies(c: Client, a: Action, q: int)
    requires Inv(c) && q in c.requests && !c.requests[q].phase.Done?
    ensures var d, r := Step(c, a), c.requests[q];
            && q in d.requests
            && (d.requests[q].phase == Done(true) <==> Gets(c, a, q, Success))
            && (d.requests[q].phase == Done(false) <==>
                  || Gets(c, a, q, OtherError)
                  || (Gets(c, a, q, Expired) && (r.retried || (!c.isRefreshing && c.refresh.None?)))
                  || (a.RefreshAnswer? && a.a.Refused? && r.phase == Refreshing(a.round))
                  || (a == Resume(q) && r.phase == Woken(None)))
            && (d.requests[q].phase.Parked? && !r.phase.Parked? <==> Gets(c, a, q, Expired) && !r.retried && c.isRefreshing)
            && (d.requests[q].phase.Refreshing? && !r.phase.Refreshing?
                <==> Gets(c, a, q, Expired) && !r.retried && !c.isRefreshing && c.refresh.Some?)
            && (d.requests[q].retried <==> r.retried || (Gets(c, a, q, Expired) && !c.isRefreshing))
  {
    hide TicketOk, QueueOk, Settled;
    assert RequestOk(c, q);
    QueueIsSettleable(c);
    if a.RefreshAnswer? && CanAnswer(c, a.round) {
      AnswerReachesEveryone(c, a.round, a.a, q);
      AnswerKeepsMarks(c, a.round, a.a, q);
    }
  }

  lemma AnswerKeepsMarks(c: Client, round: nat, a: Answer, q: int)
    requires Inv(c) && CanAnswer(c, round) && q in c.requests
    ensures q in Answered(c, round, a).requests && Answered(c, round, a).requests[q].retried == c.requests[q].retried
  {
    hide RequestOk, TicketOk, QueueOk, FlightOk, Settled;
    SettledWakes(c, c.failedQueue, round, if a.Fresh? then Some(a.access) else None, q);
  }

  /** An end is for good. */
  lemma DoneStaysDone(c: Client, a: Action, q: int)
    requires Inv(c) && q in c.requests && c.requests[q].phase.Done?
    ensures q in Step(c, a).requests && Step(c, a).requests[q] == c.requests[q]
  {
    hide TicketOk, QueueOk, Settled;
    assert RequestOk(c, q);
    if a.RefreshAnswer? && CanAnswer(c, a.round) {
      AnswerReachesEveryone(c, a.round, a.a, q);
    }
  }

  /** The tokens change exactly with a login, the answer to a refresh, and an expiry that finds no refresh token. */
  lemma TokensFollowAnswers(c: Client, a: Action)
    requires Inv(c)
    ensures var d := Step(c, a);
            if a.LogIn? then d.access == Some(a.access) && d.refresh == Some(a.refresh)
            else if a.RefreshAnswer? && a.round in c.inFlight then
              if a.a.Fresh? then d.access == Some(a.a.access) && d.refresh == Some(a.a.refresh) else d.access == None && d.refresh == None
            else if a.Receive? && Gets(c, a, a.q, Expired) && !c.requests[a.q].retried && !c.isRefreshing && c.refresh.None?
              then d.access == None && d.refresh == None
            else d.access == c.access && d.refresh == c.refresh
  {
    hide TicketOk, RequestOk, Settled;
    QueueIsSettleable(c);
  }

  // --------------------------------------------------------------- the class

  class ApiClient {
    var isRefreshing: bool
    var failedQueue: seq<nat>
    var access: Option<string>
    var refresh: Option<string>
    var requests: map<int, Request>
    var inFlight: map<nat, int>
    var rounds: nat
    var tickets: seq<Ticket>
    ghost var settled: seq<Settlement>
    ghost var outcomes: map<nat, Option<string>>

    ghost function View(): Client
      reads this
    {
      Client(isRefreshing, failedQueue, access, refresh, requests, inFlight, tickets, settled, rounds, outcomes)
    }

    constructor ()
      ensures View() == EMPTY && Inv(View())
    {
      isRefreshing, failedQueue, access, refresh := false, [], None, None;
      requests, inFlight, rounds, tickets, settled, outcomes := map[], map[], 0, [], [], map[];
    }

    method Logout()
      modifies this`access, this`refresh
      ensures View() == LoggedOut(old(View()))
    {
      access, refresh := None, None;
    }

    /** Settles every parked promise with the token, or rejects it, and empties the queue. */
    method ProcessQueue(round: nat, token: Option<string>)
      requires Settleable(View(), failedQueue)
      modifies this`failedQueue, this`requests, this`settled
      ensures View() == Settled(old(View()), old(failedQueue), round, token).(failedQueue := [])
    {
      hide Settled;
      ghost var c, all := View(), failedQueue;
      assert all[..0] == [];
      SettledNone(c, round, token);
      for i := 0 to |failedQueue|
        invariant failedQueue == all && requests == Settled(c, all[..i], round, token).requests
        invariant settled == Settled(c, all[..i], round, token).settled
      {
        SettledOneMore(c, all[..i], all[i], round, token);
        assert all[..i + 1] == all[..i] + [all[i]];
        var q := tickets[failedQueue[i]].req;
        requests := requests[q := requests[q].(phase := Woken(token))];
        settled := settled + [Settlement(failedQueue[i], round, token)];
      }
      assert all[..|all|] == all;
      failedQueue := [];
    }

    /** The first expired request: it starts the refresh call, or logs out. */
    method StartRefresh(q: int)
      requires q in requests && !isRefreshing
      modifies this
      ensures View() == Starting(old(View()), q)
    {
      requests := requests[q := requests[q].(retried := true)];
      isRefreshing := true;
      if refresh.None? {
        Logout();
        isRefreshing := false;
        requests := requests[q := requests[q].(phase := Done(false))];
        return;
      }
      requests := requests[q := requests[q].(phase := Refreshing(rounds))];
      inFlight := inFlight[rounds := q];
      rounds := rounds + 1;
    }

    /** The error handler up to its first suspension. */
    method OnReply(q: int, reply: Reply)
      requires Inv(View()) && CanReceive(View(), q)
      modifies this
      ensures View() == Replied(old(View()), q, reply) && Inv(View())
    {
      hide Inv, Starting;
      ReplyInv(View(), q, reply);
      if reply.Success? {
        requests := requests[q := requests[q].(phase := Done(true))];
        return;
      }
      if requests[q].retried || !reply.Expired? {
        requests := requests[q := requests[q].(phase := Done(false))];
        return;
      }
      if isRefreshing {
        failedQueue := failedQueue + [|tickets|];
        requests := requests[q := requests[q].(phase := Parked(|tickets|))];
        tickets := tickets + [Ticket(q, rounds - 1)];
        return;
      }
      StartRefresh(q);
    }

    /** The handler resumed by the answer of its refresh call, to the end of the finally block. */
    method OnRefreshAnswer(round: nat, a: Answer)
      requires Inv(View()) && CanAnswer(View(), round)
      modifies this
      ensures View() == Answered(old(View()), round, a) && Inv(View())
    {
      hide Inv, Answered, CanAnswer;
      AnswerInv(View(), round, a);
      match a {
        case Fresh(newAccess, newRefresh) => Refreshed(round, newAccess, newRefresh);
        case Refused => RefreshFailed(round);
      }
    }

    /** The try block, and then the finally block. */
    method Refreshed(round: nat, newAccess: string, newRefresh: string)
      requires CanAnswer(View(), round)
      modifies this
      ensures View() == Answered(old(View()), round, Fresh(newAccess, newRefresh))
    {
      hide Settled, SetPhase, LoggedOut, Answered;
      AnsweredFresh(View(), round, newAccess, newRefresh);
      var q := inFlight[round];
      inFlight := inFlight - {round};
      access, refresh := Some(newAccess), Some(newRefresh);
      ProcessQueue(round, Some(newAccess));
      requests := requests[q := requests[q].(phase := Sent, resent := requests[q].resent + 1)];
      outcomes := outcomes[round := Some(newAccess)];
      isRefreshing := false;
    }

    /** The catch block, and then the finally block. */
    method RefreshFailed(round: nat)
      requires CanAnswer(View(), round)
      modifies this
      ensures View() == Answered(old(View()), round, Refused)
    {
      hide Settled;
      SettledIgnores(View(), inFlight - {round}, access, refresh, failedQueue, round, None);
      var q := inFlight[round];
      inFlight := inFlight - {round};
      ProcessQueue(round, None);
      Logout();
      requests := requests[q := requests[q].(phase := Done(false))];
      outcomes := outcomes[round := None];
      isRefreshing := false;
    }

    method OnResume(q: int)
      requires Inv(View()) && CanResume(View(), q)
      modifies this`requests
      ensures View() == Resumed(old(View()), q) && Inv(View())
    {
      hide Inv;
      ResumeInv(View(), q);
      requests := requests[q := requests[q].(phase := if requests[q].phase.token.Some? then Sent else Done(false))];
    }
  }

  lemma SettledNone(c: Client, round: nat, token: Option<string>)
    ensures Settled(c, [], round, token) == c
  {
  }

  lemma SettledOneMore(c: Client, queue: seq<nat>, t: nat, round: nat, token: Option<string>)
    requires Settleable(c, queue) && t < |c.tickets| && c.tickets[t].req in c.requests
    ensures Settleable(c, queue + [t])
    ensures var d, e := Settled(c, queue, round, token), Settled(c, queue + [t], round, token);
            var q := c.tickets[t].req;
            && q in d.requests
            && e.requests == d.requests[q := d.requests[q].(phase := Woken(token))]
            && e.settled == d.settled + [Settlement(t, round, token)]
  {
    assert (queue + [t])[..|queue|] == queue;
  }

  /** The answer's effect in the order of the code: the tokens are stored before the queue is settled. */
  lemma AnsweredFresh(c: Client, round: nat, newAccess: string, newRefresh: string)
    requires CanAnswer(c, round)
    ensures var b, q := c.(inFlight := c.inFlight - {round}, access := Some(newAccess), refresh := Some(newRefresh)), c.inFlight[round];
            && Settleable(b, c.failedQueue)
            && var d := Settled(b, c.failedQueue, round, Some(newAccess));
               && q in d.requests && d.outcomes == c.outcomes
               && Answered(c, round, Fresh(newAccess, newRefresh))
               == d.(failedQueue := [], isRefreshing := false, outcomes := c.outcomes[round := Some(newAccess)],
                     requests := d.requests[q := d.requests[q].(phase := Sent, resent := d.requests[q].resent + 1)])
  {
    hide Settled, LoggedOut;
    SettledIgnores(c, c.inFlight - {round}, Some(newAccess), Some(newRefresh), c.failedQueue, round, Some(newAccess));
  }

  /** Settling neither reads nor writes the tokens and the calls in flight. */
  lemma {:induction false} SettledIgnores(c: Client, f: map<nat, int>, access: Option<string>, refresh: Option<string>,
                                          queue: seq<nat>, round: nat, token: Option<string>)
    requires Settleable(c, queue)
    ensures var b := c.(inFlight := f, access := access, refresh := refresh);
            && Settleable(b, queue)
            && Settled(b, queue, round, token) == Settled(c, queue, round, token).(inFlight := f, access := access, refresh := refresh)
    decreases |queue|
  {
    if queue != [] {
      SettledIgnores(c, f, access, refresh, queue[..|queue| - 1], round, token);
    }
  }
}
