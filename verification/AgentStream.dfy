/** The HTTP handler that replays and follows one request's events, and what its client ends up seeing. */
module AgentStream {
  import opened Text
  import opened Sse
  import Hub = StreamHub

  /** What the handler's select statement may choose next. */
  datatype Tick = Live(event: Hub.StreamEvent) | Beat | Closed | Cancelled

  function Wire(e: Hub.StreamEvent, encode: Hub.StreamEvent -> string): AgentEvent {
    AgentEvent(e.eventId, e.eventType, encode(e))
  }

  predicate Terminal(e: Hub.StreamEvent) {
    e.eventType == "agent.done" || e.eventType == "agent.error"
  }

  /** The live events written before the handler returns. */
  function Followed(ticks: seq<Tick>): seq<Hub.StreamEvent> {
    if ticks == [] then []
    else match ticks[0]
      case Live(e) => [e] + (if Terminal(e) then [] else Followed(ticks[1..]))
      case Beat => Followed(ticks[1..])
      case _ => []
  }

  /** All live events, in order. */
  function Lives(ticks: seq<Tick>): seq<Hub.StreamEvent> {
    if ticks == [] then [] else (if ticks[0].Live? then [ticks[0].event] else []) + Lives(ticks[1..])
  }

  /** The tick after which the handler returns: the request ends, the channel closes, or the last event comes. */
  predicate Ends(t: Tick) {
    t.Closed? || t.Cancelled? || (t.Live? && t.event.eventType in {"agent.done", "agent.error"})
  }

  /** The handler follows the live events up to the first tick that ends it, and that one's event. */
  lemma {:induction false} FollowedUntilEnd(ticks: seq<Tick>) returns (n: nat)
    ensures n <= |ticks| && Followed(ticks) == Lives(ticks[..n])
    ensures forall i :: 0 <= i < n - 1 ==> !Ends(ticks[i])
    ensures if n == 0 then ticks == [] else Ends(ticks[n - 1]) || n == |ticks|
  {
    if ticks == [] {
      n := 0;
    } else if Ends(ticks[0]) {
      n := 1;
      assert ticks[..1][1..] == [];
    } else {
      var m := FollowedUntilEnd(ticks[1..]);
      n := m + 1;
      assert ticks[..n][1..] == ticks[1..][..m];
      assert forall i :: 1 <= i < |ticks| ==> ticks[i] == ticks[1..][i - 1];
    }
  }

  function LiveFrames(ticks: seq<Tick>, encode: Hub.StreamEvent -> string): seq<Frame> {
    if ticks == [] then []
    else match ticks[0]
      case Live(e) => [Event(Wire(e, encode))] + (if Terminal(e) then [] else LiveFrames(ticks[1..], encode))
      case Beat => [Heartbeat] + LiveFrames(ticks[1..], encode)
      case _ => []
  }

  function EventFrames(events: seq<Hub.StreamEvent>, encode: Hub.StreamEvent -> string): seq<Frame> {
    if events == [] then [] else [Event(Wire(events[0], encode))] + EventFrames(events[1..], encode)
  }

  function AllFrames(start: Hub.StreamEvent, replay: seq<Hub.StreamEvent>, ticks: seq<Tick>,
                     encode: Hub.StreamEvent -> string): seq<Frame> {
    EventFrames([start] + replay, encode) + LiveFrames(ticks, encode)
  }

  lemma {:induction false} PrintAppend(xs: seq<Frame>, ys: seq<Frame>)
    ensures Print(xs + ys) == Print(xs) + Print(ys)
  {
    hide Block;
    if xs == [] {
      assert xs + ys == ys;
    } else {
      assert (xs + ys)[1..] == xs[1..] + ys;
      PrintAppend(xs[1..], ys);
      Regrouped(Block(xs[0]), Print(xs[1..]), Print(ys));
    }
  }

  lemma Regrouped(a: string, b: string, c: string)
    ensures a + "\n\n" + (b + c) == a + "\n\n" + b + c
  {
  }

  lemma PrintCons(f: Frame, rest: seq<Frame>)
    ensures Print([f] + rest) == Block(f) + "\n\n" + Print(rest)
  {
  }

  /** Stream's body after the request has been checked: start event, replay, then live events. */
  method Stream(w: ResponseWriter, start: Hub.StreamEvent, replay: seq<Hub.StreamEvent>, ticks: seq<Tick>,
                encode: Hub.StreamEvent -> string)
    modifies w
    ensures w.body == old(w.body) + Print(AllFrames(start, replay, ticks, encode))
  {
    hide Block, Print;
    ghost var b0 := w.body;
    w.WriteSSEEvent(Wire(start, encode));
    WriteOne(b0, Event(Wire(start, encode)), EventFrames(replay, encode));
    assert ([start] + replay)[1..] == replay && replay[0..] == replay;
    for i := 0 to |replay|
      invariant w.body + Print(EventFrames(replay[i..], encode)) == b0 + Print(EventFrames([start] + replay, encode))
    {
      assert replay[i..][1..] == replay[i + 1..];
      WriteOne(w.body, Event(Wire(replay[i], encode)), EventFrames(replay[i + 1..], encode));
      w.WriteSSEEvent(Wire(replay[i], encode));
    }
    NothingPrinted(w.body);
    ghost var b1 := w.body;
    PrintAppend(EventFrames([start] + replay, encode), LiveFrames(ticks, encode));
    Assoc(b0, Print(EventFrames([start] + replay, encode)), Print(LiveFrames(ticks, encode)));
    assert ticks[0..] == ticks;
    for i := 0 to |ticks|
      invariant w.body + Print(LiveFrames(ticks[i..], encode)) == b1 + Print(LiveFrames(ticks, encode))
    {
      assert ticks[i..][1..] == ticks[i + 1..];
      NothingPrinted(w.body);
      match ticks[i] {
        case Cancelled => return;
        case Closed => return;
        case Live(e) =>
          WriteOne(w.body, Event(Wire(e, encode)), if Terminal(e) then [] else LiveFrames(ticks[i + 1..], encode));
          w.WriteSSEEvent(Wire(e, encode));
          NothingPrinted(w.body);
          if Terminal(e) { return; }
        case Beat =>
          WriteOne(w.body, Heartbeat, LiveFrames(ticks[i + 1..], encode));
          w.WriteHeartbeat();
      }
    }
    NothingPrinted(w.body);
  }

  lemma WriteOne(body: string, f: Frame, rest: seq<Frame>)
    ensures body + Print([f] + rest) == body + Block(f) + "\n\n" + Print(rest)
  {
    hide Block, Print;
    PrintCons(f, rest);
    FourPieces(body, Block(f), "\n\n", Print(rest));
  }

  lemma FourPieces(a: string, b: string, c: string, d: string)
    ensures a + (b + c + d) == a + b + c + d
  {
  }

  lemma Assoc(a: string, b: string, c: string)
    ensures a + (b + c) == a + b + c
  {
  }

  lemma NothingPrinted(body: string)
    ensures body + Print([]) == body
  {
  }

  // ------------------------------------------------------------ what is seen

  /** The client drops heartbeats and blocks without data. */
  function Visible(received: seq<Received>): seq<Received> {
    if received == [] then []
    else (if received[0].data == "" || received[0].event == "ping" then [] else [received[0]]) + Visible(received[1..])
  }

  /** What the client should see of events: each one's type, as shown, and its encoding. */
  function SeenEvents(events: seq<Hub.StreamEvent>, encode: Hub.StreamEvent -> string): seq<Received> {
    seq(|events|, i requires 0 <= i < |events| => Received(ShownType(events[i].eventType), encode(events[i])))
  }

  /** An event the printer can print and the client will not take for a heartbeat. */
  predicate Showable(e: Hub.StreamEvent, encode: Hub.StreamEvent -> string) {
    var f := Event(Wire(e, encode));
    Printable(f) && ShownType(e.eventType) != "ping"
  }

  lemma {:induction false} VisibleAppend(xs: seq<Received>, ys: seq<Received>)
    ensures Visible(xs + ys) == Visible(xs) + Visible(ys)
  {
    if xs == [] {
      assert xs + ys == ys;
    } else {
      assert (xs + ys)[1..] == xs[1..] + ys;
      VisibleAppend(xs[1..], ys);
    }
  }

  lemma SeenCons(f: Frame, rest: seq<Frame>)
    ensures AllSeen([f] + rest) == [Seen(f)] + AllSeen(rest)
  {
  }

  lemma {:induction false} EventFramesSeen(events: seq<Hub.StreamEvent>, encode: Hub.StreamEvent -> string)
    requires forall e :: e in events ==> Showable(e, encode)
    ensures forall f :: f in EventFrames(events, encode) ==> Printable(f)
    ensures Visible(AllSeen(EventFrames(events, encode))) == SeenEvents(events, encode)
  {
    hide Printable, Seen;
    if events != [] {
      var f, rest := Event(Wire(events[0], encode)), EventFrames(events[1..], encode);
      assert events[0] in events;
      EventFramesSeen(events[1..], encode);
      OneVisible(events[0], encode, rest);
      SeenEventsCons(events, encode);
    }
  }

  lemma OneVisible(e: Hub.StreamEvent, encode: Hub.StreamEvent -> string, rest: seq<Frame>)
    requires Showable(e, encode)
    ensures Visible(AllSeen([Event(Wire(e, encode))] + rest)) == [Seen(Event(Wire(e, encode)))] + Visible(AllSeen(rest))
  {
    var f := Event(Wire(e, encode));
    SeenCons(f, rest);
    assert ([Seen(f)] + AllSeen(rest))[1..] == AllSeen(rest);
  }

  lemma BeatInvisible(rest: seq<Frame>)
    ensures Visible(AllSeen([Heartbeat] + rest)) == Visible(AllSeen(rest))
  {
    SeenCons(Heartbeat, rest);
    assert ([Seen(Heartbeat)] + AllSeen(rest))[1..] == AllSeen(rest);
  }

  lemma {:induction false} LiveFramesSeen(ticks: seq<Tick>, encode: Hub.StreamEvent -> string)
    requires forall e :: e in Followed(ticks) ==> Showable(e, encode)
    ensures forall f :: f in LiveFrames(ticks, encode) ==> Printable(f)
    ensures Visible(AllSeen(LiveFrames(ticks, encode))) == SeenEvents(Followed(ticks), encode)
  {
    hide Printable, Seen, Showable, SeenEvents, Wire;
    if ticks == [] {
      NothingSeen(encode);
    } else {
      match ticks[0] {
        case Live(e) =>
          assert e in Followed(ticks);
          ShowableIsPrintable(e, encode);
          var after := if Terminal(e) then [] else Followed(ticks[1..]);
          assert forall x :: x in after ==> x in Followed(ticks);
          if Terminal(e) {
            NothingSeen(encode);
            OneVisible(e, encode, []);
          } else {
            LiveFramesSeen(ticks[1..], encode);
            OneVisible(e, encode, LiveFrames(ticks[1..], encode));
          }
          assert ([e] + after)[1..] == after;
          SeenEventsCons([e] + after, encode);
        case Beat =>
          HeartbeatIsPrintable();
          LiveFramesSeen(ticks[1..], encode);
          BeatInvisible(LiveFrames(ticks[1..], encode));
        case _ => NothingSeen(encode);
      }
    }
  }

  lemma NothingSeen(encode: Hub.StreamEvent -> string)
    ensures SeenEvents([], encode) == [] && Visible(AllSeen([])) == []
  {
  }

  lemma SeenEventsCons(events: seq<Hub.StreamEvent>, encode: Hub.StreamEvent -> string)
    requires events != []
    ensures SeenEvents(events, encode) == [Seen(Event(Wire(events[0], encode)))] + SeenEvents(events[1..], encode)
  {
    hide ShownType;
  }

  lemma ShowableIsPrintable(e: Hub.StreamEvent, encode: Hub.StreamEvent -> string)
    requires Showable(e, encode)
    ensures Printable(Event(Wire(e, encode)))
  {
  }

  lemma HeartbeatIsPrintable()
    ensures Printable(Heartbeat)
  {
  }

  /** However the network cuts the response, the client sees the start event, the replay, then the live events. */
  lemma {:induction false} ClientSeesStream(start: Hub.StreamEvent, replay: seq<Hub.StreamEvent>, ticks: seq<Tick>,
                         encode: Hub.StreamEvent -> string, chunks: seq<string>)
    requires forall e :: e in [start] + replay + Followed(ticks) ==> Showable(e, encode)
    requires Join(chunks) == Print(AllFrames(start, replay, ticks, encode))
    ensures Visible(Receive("", chunks)) == SeenEvents([start] + replay + Followed(ticks), encode)
  {
    hide Printable, Seen, Showable, Print, Join, Receive, AllSeen, Visible;
    var head, tail := EventFrames([start] + replay, encode), LiveFrames(ticks, encode);
    assert forall e :: e in [start] + replay ==> e in [start] + replay + Followed(ticks);
    EventFramesSeen([start] + replay, encode);
    LiveFramesSeen(ticks, encode);
    RoundTrip(head + tail, chunks);
    SeenAppend(head, tail);
    VisibleAppend(AllSeen(head), AllSeen(tail));
    SeenEventsAppend([start] + replay, Followed(ticks), encode);
  }

  lemma SeenAppend(xs: seq<Frame>, ys: seq<Frame>)
    ensures AllSeen(xs + ys) == AllSeen(xs) + AllSeen(ys)
  {
  }

  lemma SeenEventsAppend(xs: seq<Hub.StreamEvent>, ys: seq<Hub.StreamEvent>, encode: Hub.StreamEvent -> string)
    ensures SeenEvents(xs + ys, encode) == SeenEvents(xs, encode) + SeenEvents(ys, encode)
  {
  }

  /**
   * End to end, over every run of the hub: a subscriber whose channel never filled up sees, after the
   * start event, one gap-free stretch of the request's history, beginning with the replay.
   */
  lemma {:induction false} ClientSeesHistory(actions: seq<Hub.Action>, c: nat, start: Hub.StreamEvent, ticks: seq<Tick>,
                          encode: Hub.StreamEvent -> string, chunks: seq<string>)
    requires c in Hub.Run(Hub.EMPTY, actions).channels && c in Hub.Run(Hub.EMPTY, actions).records
    requires var r := Hub.Run(Hub.EMPTY, actions).records[c];
             && r.dropped == 0
             && Followed(ticks) <= r.received
             && (forall e :: e in [start] + r.replay + Followed(ticks) ==> Showable(e, encode))
             && Join(chunks) == Print(AllFrames(start, r.replay, ticks, encode))
    ensures var s := Hub.Run(Hub.EMPTY, actions);
            var r, h := s.records[c], Hub.HistoryOf(s, s.channels[c].request);
            var lo, hi := if r.from <= Hub.RECENT_LIMIT then 0 else r.from - Hub.RECENT_LIMIT, r.from + |Followed(ticks)|;
            lo <= r.from <= hi <= |h|
            && Visible(Receive("", chunks)) == SeenEvents([start] + h[lo..hi], encode)
  {
    hide Showable, Print, Join, Receive, Visible, Followed, SeenEvents, AllFrames, Hub.Run, Hub.HistoryOf;
    var r := Hub.Run(Hub.EMPTY, actions).records[c];
    ReceivedStretch(actions, c, |Followed(ticks)|);
    assert Followed(ticks) == r.received[..|Followed(ticks)|];
    ClientSeesStream(start, r.replay, ticks, encode, chunks);
    assert [start] + r.replay + Followed(ticks) == [start] + (r.replay + Followed(ticks));
  }

  /** The replay and the first n events received are a stretch of the history, when the channel never filled up. */
  lemma ReceivedStretch(actions: seq<Hub.Action>, c: nat, n: nat)
    requires c in Hub.Run(Hub.EMPTY, actions).channels && c in Hub.Run(Hub.EMPTY, actions).records
    requires var r := Hub.Run(Hub.EMPTY, actions).records[c]; r.dropped == 0 && n <= |r.received|
    ensures var s := Hub.Run(Hub.EMPTY, actions);
            var r, h := s.records[c], Hub.HistoryOf(s, s.channels[c].request);
            var lo := if r.from <= Hub.RECENT_LIMIT then 0 else r.from - Hub.RECENT_LIMIT;
            lo <= r.from && r.from + n <= |h| && r.replay + r.received[..n] == h[lo..r.from + n]
  {
    hide Hub.Run, Hub.HistoryOf;
    Hub.EverySubscriptionSeesAStretch(actions, c);
    var s := Hub.Run(Hub.EMPTY, actions);
    var r, h := s.records[c], Hub.HistoryOf(s, s.channels[c].request);
    var lo := if r.from <= Hub.RECENT_LIMIT then 0 else r.from - Hub.RECENT_LIMIT;
    assert r.received[..n] == r.attempted[..n];
    CutStretch(h, lo, r.replay, r.attempted, n);
  }

  lemma CutStretch<T>(h: seq<T>, lo: nat, a: seq<T>, b: seq<T>, n: nat)
    requires lo + |a| + |b| <= |h| && a + b == h[lo..lo + |a| + |b|] && n <= |b|
    ensures a + b[..n] == h[lo..lo + |a| + n]
  {
    assert a + b[..n] == (a + b)[..|a| + n];
  }
}
