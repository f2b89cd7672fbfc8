/** Where the messages of a list come from: a send, the server, the local store, or a stream and its last event. */
module MessageSources {
  import opened MessageLists

  /** The copy that a send puts into its list. */
  predicate SentBy(a: Action, room: string, x: Message) {
    && a.Send? && a.room == room
    && x == Message(Sending(a.ms), a.kind, a.me, a.content, a.ms as real / 1000.0, Pending, a.parent)
  }

  predicate ReceivedBy(a: Action, room: string, x: Message) { a.Begin? && a.room == room && x == a.m.(status := Sent) }

  predicate SavedBy(a: Action, room: string, x: Message) { a.Save? && a.room == room && x == a.m }

  predicate OpenedBy(a: Action, room: string, x: Message) {
    && a.Ack? && a.room == room && x.id == Stream(a.req) && x.parent == a.parent
    && x.kind == GroupMessage && x.from == "00000000-0000-0000-0000-00000000a1b2"
  }

  /** The stream's event that a finished placeholder shows: its end, its time, and its text if it has one. */
  predicate FinishedBy(a: Action, x: Message) {
    && a.StreamEvent? && x.id == Stream(a.req) && x.timestamp == a.now
    && ((x.status == Sent && a.e.DoneEvent?) || (x.status == Failed && a.e.ErrorEvent?))
    && (a.e.text != "" ==> x.content == a.e.text)
  }

  /** The message comes from something that happened. */
  ghost predicate Sourced(past: seq<Action>, room: string, x: Message) {
    match x.id
    case Sending(_) => exists a :: a in past && SentBy(a, room, x)
    case Server(_) => exists a :: a in past && (ReceivedBy(a, room, x) || SavedBy(a, room, x))
    case Stream(_) =>
      && (exists a :: a in past && OpenedBy(a, room, x))
      && (if x.status == Pending then x.content == "正在处理中..." else exists a :: a in past && FinishedBy(a, x))
    case Missing => false
  }

  ghost predicate AllSourced(past: seq<Action>, room: string, list: seq<Message>) {
    forall k :: 0 <= k < |list| ==> Sourced(past, room, list[k])
  }

  ghost predicate HasBegun(past: seq<Action>, c: Incoming) {
    c.m.id.Server? && exists a :: a in past && a.Begin? && a.room == c.room && a.m == c.m
  }

  ghost predicate WasSaved(past: seq<Action>, room: string, m: Message) {
    m.id.Server? && exists a :: a in past && SavedBy(a, room, m)
  }

  ghost predicate AllSaved(past: seq<Action>, room: string, list: seq<Message>) {
    forall k :: 0 <= k < |list| ==> WasSaved(past, room, list[k])
  }

  ghost predicate Traced(past: seq<Action>, s: State) {
    && (forall room :: AllSourced(past, room, ListOf(s, room)))
    && (forall p :: p in s.incoming ==> HasBegun(past, s.incoming[p]))
    && (forall k :: k in s.rows ==> WasSaved(past, s.rows[k].room, s.rows[k].m))
    && (forall l :: l in s.loads ==> AllSaved(past, s.loads[l].room, s.loads[l].loaded))
  }

  // ---------------------------------------------------------- what stays true

  lemma StillSourced(past: seq<Action>, a: Action, room: string, x: Message)
    requires Sourced(past, room, x)
    ensures Sourced(past + [a], room, x)
  {
    hide SentBy, ReceivedBy, SavedBy, OpenedBy, FinishedBy;
    assert forall b :: b in past ==> b in past + [a];
  }

  lemma StillSaved(past: seq<Action>, a: Action, room: string, list: seq<Message>)
    requires AllSaved(past, room, list)
    ensures AllSaved(past + [a], room, list)
  {
    hide SavedBy;
    assert forall b :: b in past ==> b in past + [a];
    forall k | 0 <= k < |list| ensures WasSaved(past + [a], room, list[k]) { assert WasSaved(past, room, list[k]); }
  }

  lemma ListStill(past: seq<Action>, a: Action, room: string, list: seq<Message>)
    requires AllSourced(past, room, list)
    ensures AllSourced(past + [a], room, list)
  {
    hide Sourced;
    forall k | 0 <= k < |list| ensures Sourced(past + [a], room, list[k]) { StillSourced(past, a, room, list[k]); }
  }

  lemma StillTraced(past: seq<Action>, a: Action, s: State)
    requires Traced(past, s)
    ensures Traced(past + [a], s)
  {
    hide AllSourced, SavedBy, AllSaved;
    var now := past + [a];
    assert forall b :: b in past ==> b in now;
    forall room ensures AllSourced(now, room, ListOf(s, room)) { ListStill(past, a, room, ListOf(s, room)); }
    forall l | l in s.loads ensures AllSaved(now, s.loads[l].room, s.loads[l].loaded) {
      StillSaved(past, a, s.loads[l].room, s.loads[l].loaded);
    }
  }

  /** A list may be replaced by one whose messages are sourced. */
  lemma WithListTraced(past: seq<Action>, s: State, room: string, list: seq<Message>)
    requires Traced(past, s) && AllSourced(past, room, list)
    ensures Traced(past, WithList(s, room, list))
  {
    hide AllSourced, AllSaved, HasBegun, WasSaved;
    var t := WithList(s, room, list);
    forall r ensures AllSourced(past, r, ListOf(t, r)) { assert AllSourced(past, r, ListOf(s, r)); }
  }

  lemma OtherParts(past: seq<Action>, s: State, sessions: seq<Session>, incoming: map<int, Incoming>, rows: map<Key, Row>, loads: map<int, Load>)
    requires Traced(past, s)
    requires forall p :: p in incoming ==> HasBegun(past, incoming[p])
    requires forall k :: k in rows ==> WasSaved(past, rows[k].room, rows[k].m)
    requires forall l :: l in loads ==> AllSaved(past, loads[l].room, loads[l].loaded)
    ensures Traced(past, s.(sessions := sessions, incoming := incoming, rows := rows, loads := loads))
  {
    hide AllSourced, AllSaved, HasBegun, WasSaved;
    var t := s.(sessions := sessions, incoming := incoming, rows := rows, loads := loads);
    forall r ensures AllSourced(past, r, ListOf(t, r)) { assert AllSourced(past, r, ListOf(s, r)); }
  }

  lemma KeptSourced(past: seq<Action>, room: string, list: seq<Message>, keep: Message -> bool)
    requires AllSourced(past, room, list)
    ensures AllSourced(past, room, Kept(list, keep))
  {
    hide Sourced, Distinct;
    KeptFacts(list, keep);
    var kept := Kept(list, keep);
    forall k | 0 <= k < |kept| ensures Sourced(past, room, kept[k]) {
      var i :| 0 <= i < |list| && list[i] == kept[k];
    }
  }

  lemma AppendSourced(past: seq<Action>, room: string, list: seq<Message>, m: Message)
    requires AllSourced(past, room, list) && Sourced(past, room, m)
    ensures AllSourced(past, room, list + [m])
  {
    hide Sourced;
  }

  lemma PutSourced(past: seq<Action>, room: string, list: seq<Message>, i: nat, m: Message)
    requires i < |list| && AllSourced(past, room, list) && Sourced(past, room, m)
    ensures AllSourced(past, room, list[i := m])
  {
    hide Sourced;
  }

  lemma JoinSourced(past: seq<Action>, room: string, a: seq<Message>, b: seq<Message>)
    requires AllSourced(past, room, a) && AllSourced(past, room, b)
    ensures AllSourced(past, room, a + b)
  {
    hide Sourced;
  }

  lemma SavedSourced(past: seq<Action>, room: string, list: seq<Message>)
    requires AllSaved(past, room, list)
    ensures AllSourced(past, room, list)
  {
    forall k | 0 <= k < |list| ensures Sourced(past, room, list[k]) { assert WasSaved(past, room, list[k]); }
  }

  // -------------------------------------------------------------------- steps

  lemma SendTraced(past: seq<Action>, s: State, a: Action)
    requires a in past && Traced(past, s) && a.Send?
    ensures Traced(past, Step(s, a))
  {
    hide Traced, AllSourced;
    var m := OptimisticCopy(a.me, a.kind, a.content, a.parent, a.ms);
    assert SentBy(a, a.room, m);
    ListIsSourced(past, s, a.room);
    AppendSourced(past, a.room, ListOf(s, a.room), m);
    WithListTraced(past, s, a.room, ListOf(s, a.room) + [m]);
  }

  lemma ListIsSourced(past: seq<Action>, s: State, room: string)
    requires Traced(past, s)
    ensures AllSourced(past, room, ListOf(s, room))
  {
  }

  lemma BeginTraced(past: seq<Action>, s: State, a: Action)
    requires a in past && Traced(past, s) && a.Begin? && a.m.id.Server? && a.p !in s.incoming
    ensures Traced(past, Step(s, a))
  {
    hide AllSourced, AllSaved, WasSaved, StreamClosed, Matches, ListOf;
    var t := StreamClosed(s, a.room, a.m);
    ClosedTraced(past, s, a.room, a.m);
    var u := Step(s, a);
    if a.room != "" {
      ClosedKeeps(s, a.room, a.m);
      assert HasBegun(past, u.incoming[a.p]);
      forall p | p in u.incoming ensures HasBegun(past, u.incoming[p]) { if p != a.p { assert HasBegun(past, s.incoming[p]); } }
      OtherParts(past, t, t.sessions, u.incoming, t.rows, t.loads);
    }
  }

  lemma ClosedKeeps(s: State, room: string, m: Message)
    ensures var t := StreamClosed(s, room, m); t.incoming == s.incoming && t.rows == s.rows && t.loads == s.loads
  {
    hide Kept;
  }

  lemma ClosedTraced(past: seq<Action>, s: State, room: string, m: Message)
    requires Traced(past, s)
    ensures Traced(past, StreamClosed(s, room, m))
  {
    hide AllSourced, AllSaved, HasBegun, WasSaved, Kept;
    var i := FirstIndex(s.sessions, (x: Session) => Answers(x, room, m.parent));
    if i != -1 {
      var req := s.sessions[i].req;
      var kept := Kept(ListOf(s, room), (x: Message) => x.id != Stream(req));
      KeptSourced(past, room, ListOf(s, room), (x: Message) => x.id != Stream(req));
      WithListTraced(past, s, room, kept);
      OtherParts(past, WithList(s, room, kept), Kept(s.sessions, (x: Session) => x.req != req), s.incoming, s.rows, s.loads);
    }
  }

  lemma SaveTraced(past: seq<Action>, s: State, a: Action)
    requires a in past && Traced(past, s) && a.Save? && a.m.id.Server?
    ensures Traced(past, Step(s, a))
  {
    hide AllSourced, AllSaved, HasBegun;
    var rows := s.rows[ById(a.m.id) := Row(a.room, a.m)];
    assert SavedBy(a, a.room, a.m);
    forall k | k in rows ensures WasSaved(past, rows[k].room, rows[k].m) {
      if k in s.rows { assert WasSaved(past, s.rows[k].room, s.rows[k].m); }
    }
    OtherParts(past, s, s.sessions, s.incoming, rows, s.loads);
  }

  lemma FinishTraced(past: seq<Action>, s: State, p: int)
    requires Traced(past, s) && p in s.incoming
    ensures Traced(past, Finished(s, p))
  {
    hide AllSourced, AllSaved, WasSaved, HasId;
    var c := s.incoming[p];
    var list, m := ListOf(s, c.room), c.m.(status := Sent);
    assert HasBegun(past, c);
    var a :| a in past && a.Begin? && a.room == c.room && a.m == c.m;
    assert ReceivedBy(a, c.room, m);
    OtherParts(past, s, s.sessions, s.incoming - {p}, s.rows, s.loads);
    AppendSourced(past, c.room, list, m);
    if 0 <= c.matched < |list| { PutSourced(past, c.room, list, c.matched, m); }
    WithListTraced(past, s.(incoming := s.incoming - {p}), c.room, Placed(list, c.m, c.matched));
  }

  lemma AckTraced(past: seq<Action>, s: State, a: Action)
    requires a in past && Traced(past, s) && a.Ack?
    ensures Traced(past, Step(s, a))
  {
    hide AllSourced, AllSaved, WasSaved, HasBegun, HasId;
    var list := ListOf(s, a.room);
    var temp := Message(Stream(a.req), GroupMessage, ROBOT, WORKING, a.now, Pending, a.parent);
    assert OpenedBy(a, a.room, temp);
    AppendSourced(past, a.room, list, temp);
    var after := if HasId(list, Stream(a.req)) then list else list + [temp];
    WithListTraced(past, s, a.room, after);
    OtherParts(past, WithList(s, a.room, after), s.sessions + [Session(a.req, a.room, a.parent, false, "")], s.incoming, s.rows, s.loads);
  }

  lemma ShownSourced(past: seq<Action>, room: string, a: Action, x: Message)
    requires a in past && a.StreamEvent? && Sourced(past, room, x) && x.id == Stream(a.req)
    ensures Sourced(past, room, Shown(x, a.e, a.now))
  {
    var y := Shown(x, a.e, a.now);
    var b :| b in past && OpenedBy(b, room, x);
    assert OpenedBy(b, room, y);
    if !a.e.StepEvent? { assert FinishedBy(a, y); }
  }

  lemma EventTraced(past: seq<Action>, s: State, a: Action)
    requires a in past && Traced(past, s) && a.StreamEvent?
    ensures Traced(past, Step(s, a))
  {
    hide AllSaved, WasSaved, HasBegun, Sourced, Shown;
    var k := FirstIndex(s.sessions, (x: Session) => x.req == a.req);
    if k != -1 {
      var x := s.sessions[k];
      var list := ListOf(s, x.room);
      var i := FirstIndex(list, (m: Message) => m.id == Stream(a.req));
      var t := s;
      ListIsSourced(past, s, x.room);
      if i != -1 {
        ShownSourced(past, x.room, a, list[i]);
        PutSourced(past, x.room, list, i, Shown(list[i], a.e, a.now));
        t := WithList(s, x.room, list[i := Shown(list[i], a.e, a.now)]);
        WithListTraced(past, s, x.room, list[i := Shown(list[i], a.e, a.now)]);
      }
      if !a.e.StepEvent? {
        OtherParts(past, t, s.sessions[k := x.(finalized := true, finalText := a.e.text)], s.incoming, s.rows, s.loads);
      }
    }
  }

  lemma LoadTraced(past: seq<Action>, s: State, l: int, room: string, mode: Mode, keys: seq<Key>)
    requires Traced(past, s) && Selection(s, room, keys)
    ensures Traced(past, LoadBegun(s, l, room, mode, keys))
  {
    hide AllSourced, HasBegun, WasSaved, ListOf;
    var loaded := MessagesAt(s.rows, keys);
    forall k | 0 <= k < |loaded| ensures WasSaved(past, room, loaded[k]) {
      assert keys[k] in s.rows && WasSaved(past, s.rows[keys[k]].room, s.rows[keys[k]].m);
    }
    OtherParts(past, s, s.sessions, s.incoming, s.rows, s.loads[l := Load(room, mode, loaded)]);
  }

  lemma LoadedTraced(past: seq<Action>, s: State, l: int)
    requires Traced(past, s) && l in s.loads
    ensures Traced(past, LoadFinished(s, l))
  {
    hide AllSourced, AllSaved, HasBegun, WasSaved, Kept, HasId, Streaming;
    var c := s.loads[l];
    var list := ListOf(s, c.room);
    OtherParts(past, s, s.sessions, s.incoming, s.rows, s.loads - {l});
    SavedSourced(past, c.room, c.loaded);
    if c.mode.Prepend? {
      KeptSourced(past, c.room, c.loaded, (m: Message) => !HasId(list, m.id));
      JoinSourced(past, c.room, Kept(c.loaded, (m: Message) => !HasId(list, m.id)), list);
      WithListTraced(past, s.(loads := s.loads - {l}), c.room, Kept(c.loaded, (m: Message) => !HasId(list, m.id)) + list);
    } else {
      KeptSourced(past, c.room, list, (m: Message) => Streaming(s.sessions, c.room, c.loaded, m));
      JoinSourced(past, c.room, c.loaded, Kept(list, (m: Message) => Streaming(s.sessions, c.room, c.loaded, m)));
      WithListTraced(past, s.(loads := s.loads - {l}), c.room, c.loaded + Kept(list, (m: Message) => Streaming(s.sessions, c.room, c.loaded, m)));
    }
  }

  lemma StepTraced(past: seq<Action>, s: State, a: Action)
    requires Traced(past, s) && FromServer(a)
    ensures Traced(past + [a], Step(s, a))
  {
    hide Traced, SendMessage, Begun, Upserted, Finished, Acknowledged, Streamed, LoadBegun, LoadFinished, Selection;
    var now := past + [a];
    StillTraced(past, a, s);
    match a
    case Send(_, _, _, _, _, _) => SendTraced(now, s, a);
    case Begin(p, _, _, _) => if p !in s.incoming { BeginTraced(now, s, a); }
    case Save(_, _, _) => SaveTraced(now, s, a);
    case Finish(p) => if p in s.incoming { FinishTraced(now, s, p); }
    case Ack(_, _, _, _) => AckTraced(now, s, a);
    case StreamEvent(_, _, _) => EventTraced(now, s, a);
    case BeginLoad(l, room, mode, keys) => if l !in s.loads && Selection(s, room, keys) { LoadTraced(now, s, l, room, mode, keys); }
    case FinishLoad(l) => if l in s.loads { LoadedTraced(now, s, l); }
    case Disconnect => Disconnected(now, s);
  }

  lemma Disconnected(past: seq<Action>, s: State)
    requires Traced(past, s)
    ensures Traced(past, s.(sessions := []))
  {
    hide AllSourced, AllSaved, HasBegun, WasSaved;
    OtherParts(past, s, [], s.incoming, s.rows, s.loads);
  }

  lemma {:induction false} RunTraced(past: seq<Action>, s: State, actions: seq<Action>)
    requires Traced(past, s) && AllFromServer(actions)
    ensures Traced(past + actions, Run(s, actions))
    decreases |actions|
  {
    hide Traced, Step, FromServer;
    if actions == [] {
      assert past + actions == past;
    } else {
      assert FromServer(actions[0]);
      StepTraced(past, s, actions[0]);
      RunTraced(past + [actions[0]], Step(s, actions[0]), actions[1..]);
      assert past + [actions[0]] + actions[1..] == past + actions;
    }
  }

  /**
   * On every run with server ids, every message a list shows comes from something that happened in its conversation:
   * it is the copy of a send, a received message marked sent, a stored message, or the placeholder of an acknowledged
   * stream; and a placeholder that shows an end shows the text and the kind of an end of that stream.
   */
  lemma EveryMessageHasASource(actions: seq<Action>, room: string, x: Message)
    requires AllFromServer(actions) && x in ListOf(Run(EMPTY, actions), room)
    ensures Sourced(actions, room, x)
  {
    hide Run, Sourced, FromServer;
    EmptyTraced();
    RunTraced([], EMPTY, actions);
    assert [] + actions == actions;
    ListIsSourced(actions, Run(EMPTY, actions), room);
    var k :| 0 <= k < |ListOf(Run(EMPTY, actions), room)| && ListOf(Run(EMPTY, actions), room)[k] == x;
  }

  lemma EmptyTraced()
    ensures Traced([], EMPTY)
  {
  }
}
