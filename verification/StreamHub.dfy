/** The hub that fans agent events out to stream subscribers and keeps a bounded replay buffer. */
module StreamHub {
  import opened Basics
  import opened Text

  datatype StreamEvent = StreamEvent(eventId: string, eventType: string, requestId: string, ts: int, content: string)

  const RECENT_LIMIT: nat := 200
  const CHANNEL_CAPACITY: nat := 64

  /** A subscriber's channel. */
  datatype Channel = Channel(request: string, buffer: seq<StreamEvent>, closed: bool)

  /**
   * What a subscription was given: `from` is the length of the request's history when it began,
   * `attempted` what was offered to its channel since.
   */
  datatype Record = Record(replay: seq<StreamEvent>, from: nat,
                           attempted: seq<StreamEvent>, received: seq<StreamEvent>, dropped: nat)

  /** The last n elements. */
  function LastN<T>(s: seq<T>, n: nat): seq<T> {
    if |s| <= n then s else s[|s| - n..]
  }

  predicate HasRoom(ch: Channel) { |ch.buffer| < CHANNEL_CAPACITY }

  /** A non-blocking send: a full channel loses the event. */
  function Offer(ch: Channel, e: StreamEvent): Channel {
    if HasRoom(ch) then ch.(buffer := ch.buffer + [e]) else ch
  }

  function Noted(r: Record, hadRoom: bool, e: StreamEvent): Record {
    r.(attempted := r.attempted + [e], dropped := if hadRoom then r.dropped else r.dropped + 1)
  }

  /** A channel's record against the history: replay, then every event since; loss only by a full buffer. */
  predicate Tracks(ch: Channel, r: Record, h: seq<StreamEvent>) {
    && r.from + |r.attempted| <= |h|
    && r.replay == LastN(h[..r.from], RECENT_LIMIT)
    && r.attempted == h[r.from..r.from + |r.attempted|]
    && |ch.buffer| <= CHANNEL_CAPACITY
    && |r.received| + |ch.buffer| + r.dropped == |r.attempted|
    && (r.dropped == 0 ==> r.received + ch.buffer == r.attempted)
    && (!ch.closed ==> r.from + |r.attempted| == |h|)
  }

  lemma OfferTracks(ch: Channel, r: Record, h: seq<StreamEvent>, e: StreamEvent)
    requires Tracks(ch, r, h) && !ch.closed
    ensures Tracks(Offer(ch, e), Noted(r, HasRoom(ch), e), h + [e])
  {
  }

  lemma GrowthTracks(ch: Channel, r: Record, h: seq<StreamEvent>, e: StreamEvent)
    requires Tracks(ch, r, h) && ch.closed
    ensures Tracks(ch, r, h + [e])
  {
  }

  lemma CloseTracks(ch: Channel, r: Record, h: seq<StreamEvent>)
    requires Tracks(ch, r, h)
    ensures Tracks(ch.(closed := true), r, h)
  {
  }

  lemma TakeTracks(ch: Channel, r: Record, h: seq<StreamEvent>)
    requires Tracks(ch, r, h) && ch.buffer != []
    ensures Tracks(ch.(buffer := ch.buffer[1..]), r.(received := r.received + [ch.buffer[0]]), h)
  {
  }

  lemma TracksMeans(ch: Channel, r: Record, h: seq<StreamEvent>)
    requires Tracks(ch, r, h)
    ensures var lo, hi := if r.from <= RECENT_LIMIT then 0 else r.from - RECENT_LIMIT, r.from + |r.attempted|;
            lo <= hi <= |h| && r.replay + r.attempted == h[lo..hi]
            && (!ch.closed ==> hi == |h|)
            && (r.dropped == 0 ==> r.received + ch.buffer == r.attempted)
  {
  }

  /** What Publish stores and sends: blank ids and missing times are filled in. */
  function Stamped(e: StreamEvent, id: nat, clock: nat -> string, now: int): StreamEvent {
    StreamEvent(if GoTrim(e.eventId) == "" then "evt_" + GoTrim(clock(id)) else e.eventId,
                e.eventType, GoTrim(e.requestId), if e.ts <= 0 then now else e.ts, e.content)
  }

  /** Appending to a bounded buffer keeps the last n of everything ever appended. */
  lemma KeepLast<T>(all: seq<T>, x: T, n: nat)
    requires n > 0
    ensures LastN(LastN(all, n) + [x], n) == LastN(all + [x], n)
  {
  }

  // ------------------------------------------------------------------ states

  /** The hub's maps, and every event ever published for each request, in lock order. */
  datatype State = State(subscribers: map<string, set<nat>>, recent: map<string, seq<StreamEvent>>, nextID: nat,
                         channels: map<nat, Channel>, channelCount: nat,
                         history: map<string, seq<StreamEvent>>, records: map<nat, Record>)

  const EMPTY := State(map[], map[], 0, map[], 0, map[], map[])

  function HistoryOf(s: State, request: string): seq<StreamEvent> {
    if request in s.history then s.history[request] else []
  }

  function RecentOf(s: State, request: string): seq<StreamEvent> {
    if request in s.recent then s.recent[request] else []
  }

  function SubscribersOf(s: State, request: string): set<nat> {
    if request in s.subscribers then s.subscribers[request] else {}
  }

  function Subscribed(s: State, request: string): State {
    var c := s.channelCount;
    var replay := if request == "" then [] else RecentOf(s, request);
    s.(subscribers := if request == "" then s.subscribers
                      else s.subscribers[request := SubscribersOf(s, request) + {c}],
       channels := s.channels[c := Channel(request, [], false)],
       channelCount := c + 1,
       records := s.records[c := Record(replay, |HistoryOf(s, request)|, [], [], 0)])
  }

  function Unsubscribed(s: State, c: nat): State
    requires c in s.channels
  {
    var r := s.channels[c].request;
    var left := SubscribersOf(s, r) - {c};
    s.(subscribers := if r !in s.subscribers then s.subscribers
                      else if left == {} then s.subscribers - {r} else s.subscribers[r := left],
       channels := s.channels[c := s.channels[c].(closed := true)])
  }

  function OfferedTo(channels: map<nat, Channel>, to: set<nat>, e: StreamEvent): map<nat, Channel> {
    map c | c in channels :: if c in to then Offer(channels[c], e) else channels[c]
  }

  function NotedFor(records: map<nat, Record>, channels: map<nat, Channel>, to: set<nat>, e: StreamEvent): map<nat, Record> {
    map c | c in records ::
      if c in to && c in channels then Noted(records[c], HasRoom(channels[c]), e) else records[c]
  }

  /** An event already stamped for a non-blank request: what the lock and the sends do with it. */
  function Spread(s: State, r: string, e: StreamEvent): State {
    var to := SubscribersOf(s, r);
    s.(nextID := s.nextID + 1,
       recent := s.recent[r := LastN(RecentOf(s, r) + [e], RECENT_LIMIT)],
       history := s.history[r := HistoryOf(s, r) + [e]],
       channels := OfferedTo(s.channels, to, e),
       records := NotedFor(s.records, s.channels, to, e))
  }

  function Published(s: State, event: StreamEvent, clock: nat -> string, now: int): State {
    var r := GoTrim(event.requestId);
    if r == "" then s
    else
      Spread(s, r, Stamped(event, s.nextID + 1, clock, now))
  }

  /** A reader takes the next waiting event of a channel. */
  function Taken(s: State, c: nat): State {
    if c !in s.channels || c !in s.records || s.channels[c].buffer == [] then s
    else
      var ch, r := s.channels[c], s.records[c];
      s.(channels := s.channels[c := ch.(buffer := ch.buffer[1..])],
         records := s.records[c := r.(received := r.received + [ch.buffer[0]])])
  }

  // --------------------------------------------------------------- invariant

  predicate RecentOk(s: State, r: string) {
    RecentOf(s, r) == LastN(HistoryOf(s, r), RECENT_LIMIT)
  }

  predicate SubscriptionsOk(s: State, r: string) {
    && (r in s.subscribers ==> r != "" && s.subscribers[r] != {})
    && forall c :: c in SubscribersOf(s, r) ==> c in s.channels && s.channels[c].request == r && !s.channels[c].closed
  }

  predicate ChannelOk(s: State, c: nat)
    requires c in s.channels
  {
    && c < s.channelCount
    && c in s.records
    && Tracks(s.channels[c], s.records[c], HistoryOf(s, s.channels[c].request))
    && (!s.channels[c].closed && s.channels[c].request != "" ==> c in SubscribersOf(s, s.channels[c].request))
  }

  ghost predicate Inv(s: State) {
    && s.records.Keys == s.channels.Keys
    && HistoryOf(s, "") == []
    && (forall r :: RecentOk(s, r))
    && (forall r :: SubscriptionsOk(s, r))
    && (forall c :: c in s.channels ==> ChannelOk(s, c))
  }

  lemma EmptyInv()
    ensures Inv(EMPTY)
  {
  }

  lemma SubscribedInv(s: State, request: string)
    requires Inv(s)
    ensures Inv(Subscribed(s, request))
  {
    hide LastN, Tracks, ChannelOk;
    var t, c := Subscribed(s, request), s.channelCount;
    assert c !in s.channels by { if c in s.channels { assert ChannelOk(s, c); CountBounds(s, c); } }
    forall d | d in t.channels
      ensures ChannelOk(t, d)
    {
      if d == c { NewChannelOk(s, request); } else { OldChannelOk(s, request, d); }
    }
    forall r
      ensures SubscriptionsOk(t, r) && RecentOk(t, r)
    {
      assert SubscriptionsOk(s, r) && RecentOk(s, r);
    }
  }

  lemma CountBounds(s: State, c: nat)
    requires c in s.channels && ChannelOk(s, c)
    ensures c < s.channelCount
  {
  }

  lemma NewChannelOk(s: State, request: string)
    requires RecentOk(s, request) && HistoryOf(s, "") == []
    ensures ChannelOk(Subscribed(s, request), s.channelCount)
  {
  }

  lemma OldChannelOk(s: State, request: string, d: nat)
    requires d in s.channels && ChannelOk(s, d) && d != s.channelCount
    ensures ChannelOk(Subscribed(s, request), d)
  {
  }

  lemma UnsubscribedChannel(s: State, c: nat, d: nat)
    requires c in s.channels && d in s.channels && ChannelOk(s, d)
    ensures ChannelOk(Unsubscribed(s, c), d)
  {
    hide Tracks;
    CloseTracks(s.channels[d], s.records[d], HistoryOf(s, s.channels[d].request));
  }

  lemma UnsubscribedRequest(s: State, c: nat, r: string)
    requires c in s.channels && SubscriptionsOk(s, r) && RecentOk(s, r)
    ensures SubscriptionsOk(Unsubscribed(s, c), r) && RecentOk(Unsubscribed(s, c), r)
  {
    hide LastN;
  }

  lemma OfferKeepsRequest(ch: Channel, e: StreamEvent)
    ensures Offer(ch, e).request == ch.request && Offer(ch, e).closed == ch.closed
  {
  }

  lemma SpreadChannel(s: State, r: string, e: StreamEvent, d: nat)
    requires r != "" && d in s.channels && ChannelOk(s, d) && SubscriptionsOk(s, r)
    ensures ChannelOk(Spread(s, r, e), d)
  {
    hide LastN, Tracks, Offer, Noted;
    var ch := s.channels[d];
    OfferKeepsRequest(ch, e);
    if d in SubscribersOf(s, r) {
      OfferTracks(ch, s.records[d], HistoryOf(s, r), e);
    } else if ch.request == r {
      GrowthTracks(ch, s.records[d], HistoryOf(s, r), e);
    }
  }

  lemma SpreadRecent(s: State, r: string, e: StreamEvent, q: string)
    requires RecentOk(s, r) && RecentOk(s, q)
    ensures RecentOk(Spread(s, r, e), q)
  {
    hide LastN, OfferedTo, NotedFor;
    KeepLast(HistoryOf(s, r), e, RECENT_LIMIT);
  }

  lemma SpreadSubscriptions(s: State, r: string, e: StreamEvent, q: string)
    requires SubscriptionsOk(s, q)
    ensures SubscriptionsOk(Spread(s, r, e), q)
  {
    hide LastN, Offer, NotedFor;
    var t := Spread(s, r, e);
    forall c | c in SubscribersOf(t, q)
      ensures c in t.channels && t.channels[c].request == q && !t.channels[c].closed
    {
      OfferKeepsRequest(s.channels[c], e);
    }
  }

  lemma PublishedInv(s: State, event: StreamEvent, clock: nat -> string, now: int)
    requires Inv(s)
    ensures Inv(Published(s, event, clock, now))
  {
    hide LastN, OfferedTo, NotedFor, GoTrim, Stamped, ChannelOk, SubscriptionsOk, RecentOk;
    var r := GoTrim(event.requestId);
    if r != "" {
      var stored := Stamped(event, s.nextID + 1, clock, now);
      var t := Spread(s, r, stored);
      SameKeys(s, r, stored);
      assert SubscriptionsOk(s, r) && RecentOk(s, r);
      forall d | d in t.channels
        ensures ChannelOk(t, d)
      {
        assert ChannelOk(s, d);
        SpreadChannel(s, r, stored, d);
      }
      forall q
        ensures SubscriptionsOk(t, q) && RecentOk(t, q)
      {
        assert SubscriptionsOk(s, q) && RecentOk(s, q);
        SpreadSubscriptions(s, r, stored, q);
        SpreadRecent(s, r, stored, q);
      }
    }
  }

  lemma SameKeys(s: State, r: string, e: StreamEvent)
    ensures Spread(s, r, e).channels.Keys == s.channels.Keys && Spread(s, r, e).records.Keys == s.records.Keys
  {
  }

  lemma TakenChannel(s: State, c: nat, d: nat)
    requires d in s.channels && ChannelOk(s, d)
    ensures d in Taken(s, c).channels && ChannelOk(Taken(s, c), d)
  {
    hide Tracks;
    if d == c && s.channels[c].buffer != [] {
      TakeTracks(s.channels[c], s.records[c], HistoryOf(s, s.channels[c].request));
    }
  }

  lemma TakenRequest(s: State, c: nat, r: string)
    requires SubscriptionsOk(s, r) && RecentOk(s, r)
    ensures SubscriptionsOk(Taken(s, c), r) && RecentOk(Taken(s, c), r)
  {
    hide LastN;
  }

  /** What the owner of a subscription does to it: reading from its channel, and unsubscribing once. */
  lemma {:induction false} OwnerInv(s: State, c: nat)
    requires Inv(s)
    ensures Inv(Taken(s, c))
    ensures c in s.channels ==> Inv(Unsubscribed(s, c))
  {
    hide ChannelOk, SubscriptionsOk, RecentOk;
    var t := Taken(s, c);
    forall d | d in t.channels ensures ChannelOk(t, d) { assert ChannelOk(s, d); TakenChannel(s, c, d); }
    forall r ensures SubscriptionsOk(t, r) && RecentOk(t, r) {
      assert SubscriptionsOk(s, r) && RecentOk(s, r);
      TakenRequest(s, c, r);
    }
    if c in s.channels {
      var u := Unsubscribed(s, c);
      forall d | d in u.channels ensures ChannelOk(u, d) { assert ChannelOk(s, d); UnsubscribedChannel(s, c, d); }
      forall r ensures SubscriptionsOk(u, r) && RecentOk(u, r) {
        assert SubscriptionsOk(s, r) && RecentOk(s, r);
        UnsubscribedRequest(s, c, r);
      }
    }
  }

  // ---------------------------------------------------------------- all runs

  datatype Action =
    | DoSubscribe(request: string)
    | DoUnsubscribe(c: nat)
    | DoPublish(event: StreamEvent, stamp: string, now: int)
    | DoReceive(c: nat)

  /** One locked operation; an operation on a channel that is closed or empty does nothing. */
  function Step(s: State, a: Action): State {
    match a
    case DoSubscribe(request) => Subscribed(s, GoTrim(request))
    case DoUnsubscribe(c) => if c in s.channels && !s.channels[c].closed then Unsubscribed(s, c) else s
    case DoPublish(e, stamp, now) => Published(s, e, n => stamp, now)
    case DoReceive(c) =>
      Taken(s, c)
  }

  function Run(s: State, actions: seq<Action>): State
    decreases |actions|
  {
    if actions == [] then s else Run(Step(s, actions[0]), actions[1..])
  }

  lemma {:induction false} RunInv(s: State, actions: seq<Action>)
    requires Inv(s)
    ensures Inv(Run(s, actions))
    decreases |actions|
  {
    hide Inv, Subscribed, Unsubscribed, Published, Taken, GoTrim;
    if actions != [] {
      match actions[0] {
        case DoSubscribe(request) => SubscribedInv(s, GoTrim(request));
        case DoUnsubscribe(c) => if c in s.channels && !s.channels[c].closed { OwnerInv(s, c); }
        case DoPublish(e, stamp, now) => PublishedInv(s, e, n => stamp, now);
        case DoReceive(c) => OwnerInv(s, c);
      }
      RunInv(Step(s, actions[0]), actions[1..]);
    }
  }

  /**
   * In every reachable state: what a subscription was replayed and then offered is one gap-free,
   * duplicate-free stretch of its request's history, reaching the present while it is open; the replay
   * buffer is exactly the last 200 events; and what a channel delivered is complete unless it was full.
   */
  lemma {:induction false} EverySubscriptionSeesAStretch(actions: seq<Action>, c: nat)
    requires c in Run(EMPTY, actions).channels
    ensures var s := Run(EMPTY, actions);
            var ch, h := s.channels[c], HistoryOf(s, s.channels[c].request);
            && c in s.records
            && var r := s.records[c];
               var lo, hi := if r.from <= 200 then 0 else r.from - 200, r.from + |r.attempted|;
               && lo <= hi <= |h| && r.replay + r.attempted == h[lo..hi]
               && (!ch.closed ==> hi == |h|)
               && (r.dropped == 0 ==> r.received + ch.buffer == r.attempted)
               && RecentOf(s, ch.request) == if |h| <= 200 then h else h[|h| - 200..]
  {
    hide Tracks, Run;
    EmptyInv();
    RunInv(EMPTY, actions);
    var s := Run(EMPTY, actions);
    assert ChannelOk(s, c) && RecentOk(s, s.channels[c].request);
    TracksMeans(s.channels[c], s.records[c], HistoryOf(s, s.channels[c].request));
  }

  // ------------------------------------------------------------- the history

  /** A publish for this request, and what it stores. */
  predicate Publishes(a: Action, request: string) { a.DoPublish? && GoTrim(a.event.requestId) == request }

  /** The publishes of a run for one request, in order. */
  function PublishesOf(actions: seq<Action>, request: string): seq<Action>
    decreases |actions|
  {
    if actions == [] then []
    else (if Publishes(actions[0], request) then [actions[0]] else []) + PublishesOf(actions[1..], request)
  }

  /** The stored event is the published one; only a blank id, the spaces around the request and a missing time give way. */
  predicate Stores(a: Action, request: string, e: StreamEvent)
    requires a.DoPublish?
  {
    && e.eventType == a.event.eventType && e.content == a.event.content && e.requestId == request
    && (GoTrim(a.event.eventId) != "" ==> e.eventId == a.event.eventId)
    && (GoTrim(a.event.eventId) == "" ==> e.eventId == "evt_" + GoTrim(a.stamp))
    && e.ts == if a.event.ts > 0 then a.event.ts else a.now
  }

  lemma StepStores(s: State, a: Action, request: string)
    requires request != ""
    ensures var h, k := HistoryOf(s, request), HistoryOf(Step(s, a), request);
            if Publishes(a, request) then |k| == |h| + 1 && k[..|h|] == h && Stores(a, request, k[|h|]) else k == h
  {
    hide GoTrim, LastN, OfferedTo, NotedFor, RecentOf, SubscribersOf;
  }

  /** A publish counts up, and a generated id is made from the new count. */
  lemma PublishCounts(s: State, event: StreamEvent, clock: nat -> string, now: int)
    requires GoTrim(event.requestId) != ""
    ensures var t, r := Published(s, event, clock, now), GoTrim(event.requestId);
            && t.nextID == s.nextID + 1
            && |HistoryOf(t, r)| == |HistoryOf(s, r)| + 1
            && (GoTrim(event.eventId) == "" ==> HistoryOf(t, r)[|HistoryOf(s, r)|].eventId == "evt_" + GoTrim(clock(s.nextID + 1)))
  {
    hide GoTrim, LastN, OfferedTo, NotedFor, RecentOf, SubscribersOf;
  }

  /** What a run adds to a history: for each publish of the request, in order, the event it stores. */
  ghost predicate Adds(h: seq<StreamEvent>, k: seq<StreamEvent>, ps: seq<Action>, request: string)
    requires forall i :: 0 <= i < |ps| ==> ps[i].DoPublish?
  {
    |k| == |h| + |ps| && k[..|h|] == h && forall i :: 0 <= i < |ps| ==> Stores(ps[i], request, k[|h| + i])
  }

  lemma {:induction false} PublishesArePublishes(actions: seq<Action>, request: string)
    ensures forall i :: 0 <= i < |PublishesOf(actions, request)| ==> PublishesOf(actions, request)[i].DoPublish?
    decreases |actions|
  {
    if actions != [] { PublishesArePublishes(actions[1..], request); }
  }

  lemma {:induction false} RunAdds(s: State, actions: seq<Action>, request: string)
    requires request != ""
    ensures var ps := PublishesOf(actions, request);
            && (forall i :: 0 <= i < |ps| ==> ps[i].DoPublish?)
            && Adds(HistoryOf(s, request), HistoryOf(Run(s, actions), request), ps, request)
    decreases |actions|
  {
    hide Step, Stores, HistoryOf;
    PublishesArePublishes(actions, request);
    if actions != [] {
      var t := Step(s, actions[0]);
      StepStores(s, actions[0], request);
      RunAdds(t, actions[1..], request);
      AddsOneMore(HistoryOf(s, request), HistoryOf(t, request), HistoryOf(Run(t, actions[1..]), request), actions, request);
    }
  }

  lemma AddsOneMore(h: seq<StreamEvent>, k: seq<StreamEvent>, l: seq<StreamEvent>, actions: seq<Action>, request: string)
    requires actions != [] && forall i :: 0 <= i < |PublishesOf(actions[1..], request)| ==> PublishesOf(actions[1..], request)[i].DoPublish?
    requires if Publishes(actions[0], request) then |k| == |h| + 1 && k[..|h|] == h && Stores(actions[0], request, k[|h|]) else k == h
    requires Adds(k, l, PublishesOf(actions[1..], request), request)
    ensures forall i :: 0 <= i < |PublishesOf(actions, request)| ==> PublishesOf(actions, request)[i].DoPublish?
    ensures Adds(h, l, PublishesOf(actions, request), request)
  {
    hide Stores, Publishes;
    var later, all := PublishesOf(actions[1..], request), PublishesOf(actions, request);
    if Publishes(actions[0], request) {
      assert all == [actions[0]] + later;
      assert l[|h|] == l[..|k|][|h|] && l[..|h|] == l[..|k|][..|h|];
      assert Publishes(actions[0], request) ==> actions[0].DoPublish? by { PublishIsPublish(actions[0], request); }
      forall i | 0 <= i < |all| ensures all[i].DoPublish? && Stores(all[i], request, l[|h| + i]) {
        if i > 0 { assert all[i] == later[i - 1] && l[|h| + i] == l[|k| + (i - 1)]; }
      }
    } else {
      assert all == later;
    }
  }

  lemma PublishIsPublish(a: Action, request: string)
    ensures Publishes(a, request) ==> a.DoPublish?
  {
  }

  /** On every run the history of a request is what was published for it, in order, each event with its defaults filled in. */
  lemma HistoryIsWhatWasPublished(actions: seq<Action>, request: string)
    requires request != ""
    ensures var h, ps := HistoryOf(Run(EMPTY, actions), request), PublishesOf(actions, request);
            && |h| == |ps|
            && forall i :: 0 <= i < |ps| ==> ps[i].DoPublish? && Stores(ps[i], request, h[i])
  {
    hide Run, Stores, PublishesOf;
    RunAdds(EMPTY, actions, request);
    assert HistoryOf(EMPTY, request) == [];
  }

  // --------------------------------------------------------------- the class

  class AgentStreamHub {
    var subscribers: map<string, set<nat>>
    var recent: map<string, seq<StreamEvent>>
    var nextID: nat
    var channels: map<nat, Channel>
    var channelCount: nat
    ghost var history: map<string, seq<StreamEvent>>
    ghost var records: map<nat, Record>

    ghost function View(): State
      reads this
    {
      State(subscribers, recent, nextID, channels, channelCount, history, records)
    }

    constructor ()
      ensures View() == EMPTY && Inv(View())
    {
      subscribers, recent, nextID, channels, channelCount := map[], map[], 0, map[], 0;
      history, records := map[], map[];
    }

    method Subscribe(requestID: string) returns (c: nat, replay: seq<StreamEvent>)
      requires Inv(View())
      modifies this
      ensures View() == Subscribed(old(View()), GoTrim(requestID)) && Inv(View())
      ensures c == old(channelCount) && replay == records[c].replay
    {
      hide GoTrim, RecentOk, SubscriptionsOk, ChannelOk, Inv;
      SubscribedInv(View(), GoTrim(requestID));
      ghost var h := |HistoryOf(View(), GoTrim(requestID))|;
      var trimmed := GoTrim(requestID);
      c := channelCount;
      channelCount := channelCount + 1;
      if trimmed == "" {
        replay := [];
      } else {
        var subs := if trimmed in subscribers then subscribers[trimmed] else {};
        subscribers := subscribers[trimmed := subs + {c}];
        replay := if trimmed in recent then recent[trimmed] else [];
      }
      channels := channels[c := Channel(trimmed, [], false)];
      records := records[c := Record(replay, h, [], [], 0)];
    }

    /** The function returned by Subscribe: it may be called once, as it closes the channel. */
    method Unsubscribe(c: nat)
      requires Inv(View()) && c in channels && !channels[c].closed
      modifies this
      ensures View() == Unsubscribed(old(View()), c) && Inv(View())
    {
      hide RecentOk, SubscriptionsOk, ChannelOk;
      OwnerInv(View(), c);
      var r := channels[c].request;
      if r in subscribers {
        var left := subscribers[r] - {c};
        if left == {} {
          subscribers := subscribers - {r};
        } else {
          subscribers := subscribers[r := left];
        }
      }
      channels := channels[c := channels[c].(closed := true)];
    }

    /** The event joins the request's buffer, which is then trimmed. */
    method Remember(r: string, e: StreamEvent)
      modifies this`recent, this`history
      ensures recent == old(recent)[r := LastN(RecentOf(old(View()), r) + [e], RECENT_LIMIT)]
      ensures history == old(history)[r := HistoryOf(old(View()), r) + [e]]
    {
      hide LastN;
      var kept := (if r in recent then recent[r] else []) + [e];
      LastByLength(kept);
      if |kept| > RECENT_LIMIT {
        kept := kept[|kept| - RECENT_LIMIT..];
      }
      recent := recent[r := kept];
      history := history[r := (if r in history then history[r] else []) + [e]];
    }

    method Publish(event: StreamEvent, clock: nat -> string, now: int)
      requires Inv(View())
      modifies this
      ensures View() == Published(old(View()), event, clock, now) && Inv(View())
    {
      hide GoTrim, Inv, Stamped, LastN, OfferedTo, NotedFor;
      PublishedInv(View(), event, clock, now);
      var r := GoTrim(event.requestId);
      if r == "" { return; }
      SubscribersExist(View(), r);
      nextID := nextID + 1;
      var stored := Stamped(event, nextID, clock, now);
      Remember(r, stored);
      SendToAll(stored, if r in subscribers then subscribers[r] else {});
    }

    /** The sends after the lock is released, in any order; here without another operation in between. */
    method SendToAll(e: StreamEvent, to: set<nat>)
      requires to <= channels.Keys == records.Keys
      modifies this`channels, this`records
      ensures channels == OfferedTo(old(channels), to, e)
      ensures records == NotedFor(old(records), old(channels), to, e)
    {
      hide Offer, Noted, HasRoom;
      var sent, todo := channels, to;
      ghost var noted := records;
      while todo != {}
        invariant todo <= to <= sent.Keys == channels.Keys == records.Keys == noted.Keys
        invariant forall c :: c in sent ==> sent[c] == if c in to - todo then Offer(channels[c], e) else channels[c]
        invariant forall c :: c in noted ==>
          noted[c] == if c in to - todo then Noted(records[c], HasRoom(channels[c]), e) else records[c]
      {
        var c :| c in todo;
        noted := noted[c := Noted(records[c], HasRoom(channels[c]), e)];
        sent := sent[c := Offer(channels[c], e)];
        todo := todo - {c};
      }
      channels, records := sent, noted;
    }

    /** The next waiting event of a channel, if there is one. */
    method Receive(c: nat) returns (e: Option<StreamEvent>)
      requires Inv(View())
      modifies this
      ensures e == if c in old(channels) && old(channels)[c].buffer != [] then Some(old(channels)[c].buffer[0]) else None
      ensures View() == Taken(old(View()), c) && Inv(View())
    {
      hide RecentOk, SubscriptionsOk, ChannelOk;
      OwnerInv(View(), c);
      if c !in channels || channels[c].buffer == [] { return None; }
      var ch := channels[c];
      e := Some(ch.buffer[0]);
      channels := channels[c := ch.(buffer := ch.buffer[1..])];
      records := records[c := records[c].(received := records[c].received + [ch.buffer[0]])];
    }
  }

  lemma LastByLength(all: seq<StreamEvent>)
    ensures LastN(all, RECENT_LIMIT) == if |all| > RECENT_LIMIT then all[|all| - RECENT_LIMIT..] else all
  {
  }

  lemma SubscribersExist(s: State, r: string)
    requires Inv(s)
    ensures SubscribersOf(s, r) <= s.channels.Keys == s.records.Keys
  {
    assert SubscriptionsOk(s, r);
  }
}
