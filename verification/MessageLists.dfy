/** The client's message lists: optimistic sends, incoming messages, agent streams and loads from the local store. */
module MessageLists {

  /** Message ids: none, one from the server, one of an optimistic send, one of an agent stream. */
  datatype Id = Missing | Server(s: string) | Sending(ms: int) | Stream(req: string)

  datatype Kind = GroupMessage | FriendMessage

  datatype Status = Pending | Sent | Failed

  datatype Message = Message(id: Id, kind: Kind, from: string, content: string, timestamp: real, status: Status, parent: string)

  datatype Session = Session(req: string, room: string, parent: string, finalized: bool, finalText: string)

  /** A stored row: its primary key, its conversation, and the message its payload holds. */
  datatype Row = Row(room: string, m: Message)

  datatype Key = ById(id: Id) | Auto(ms: int)

  /** An incoming message between its first and its last step, with the index of the optimistic copy it matched, or -1. */
  datatype Incoming = Incoming(room: string, m: Message, matched: int)

  datatype Mode = Replace | Prepend

  datatype Load = Load(room: string, mode: Mode, loaded: seq<Message>)

  datatype State = State(lists: map<string, seq<Message>>, sessions: seq<Session>, rows: map<Key, Row>,
                         incoming: map<int, Incoming>, loads: map<int, Load>)

  const ROBOT := "00000000-0000-0000-0000-00000000a1b2"
  const WORKING := "正在处理中..."

  const EMPTY := State(map[], [], map[], map[], map[])

  function ListOf(s: State, room: string): seq<Message> {
    if room in s.lists then s.lists[room] else []
  }

  function WithList(s: State, room: string, list: seq<Message>): State {
    s.(lists := s.lists[room := list])
  }

  predicate HasId(list: seq<Message>, id: Id) { exists i :: 0 <= i < |list| && list[i].id == id }

  ghost predicate Distinct(list: seq<Message>) {
    forall i, j :: 0 <= i < j < |list| ==> list[i].id != list[j].id
  }

  /** Array.prototype.filter. */
  function Kept<T>(list: seq<T>, keep: T -> bool): seq<T>
    decreases |list|
  {
    if list == [] then []
    else Kept(list[..|list| - 1], keep) + if keep(list[|list| - 1]) then [list[|list| - 1]] else []
  }

  /** Array.prototype.findIndex. */
  function FirstIndex<T>(list: seq<T>, p: T -> bool): (i: int)
    ensures -1 <= i < |list|
    ensures i >= 0 ==> p(list[i])
    ensures forall j :: 0 <= j < (if i >= 0 then i else |list|) ==> !p(list[j])
  {
    if list == [] then -1
    else if p(list[0]) then 0
    else var i := FirstIndex(list[1..], p); if i == -1 then -1 else i + 1
  }

  /** The last index that satisfies a condition, or -1: a findIndex over the reversed list. */
  function LastIndex(list: seq<Message>, p: Message -> bool): (i: int)
    ensures -1 <= i < |list|
    ensures i >= 0 ==> p(list[i])
    ensures forall j :: i < j < |list| ==> !p(list[j])
    decreases |list|
  {
    if list == [] then -1
    else if p(list[|list| - 1]) then |list| - 1
    else LastIndex(list[..|list| - 1], p)
  }

  // ------------------------------------------------------------------ steps

  function OptimisticCopy(me: string, kind: Kind, content: string, parent: string, ms: int): Message {
    Message(Sending(ms), kind, me, content, ms as real / 1000.0, Pending, parent)
  }

  function SendMessage(s: State, room: string, m: Message): State {
    WithList(s, room, ListOf(s, room) + [m])
  }

  predicate Answers(x: Session, room: string, parent: string) { x.room == room && x.parent == parent }

  /** A reply of the robot ends the stream it answers: its placeholder and its session go. */
  function StreamClosed(s: State, room: string, m: Message): State {
    if m.from != ROBOT || !m.kind.GroupMessage? || m.parent == "" then s
    else
      var i := FirstIndex(s.sessions, (x: Session) => Answers(x, room, m.parent));
      if i == -1 then s
      else
        var req := s.sessions[i].req;
        WithList(s, room, Kept(ListOf(s, room), (x: Message) => x.id != Stream(req)))
          .(sessions := Kept(s.sessions, (x: Session) => x.req != req))
  }

  function Abs(x: real): real { if x < 0.0 then -x else x }

  predicate Temporary(id: Id) { id.Sending? || id.Stream? }

  predicate Matches(t: Message, m: Message) {
    && Temporary(t.id) && t.status.Pending? && t.kind == m.kind && t.content == m.content
    && Abs(t.timestamp - m.timestamp) <= 10.0
  }

  function Begun(s: State, p: int, room: string, m: Message, me: string): State {
    if room == "" then s
    else
      var t := StreamClosed(s, room, m);
      var i := if me != "" && m.from == me then LastIndex(ListOf(t, room), (x: Message) => Matches(x, m)) else -1;
      t.(incoming := t.incoming[p := Incoming(room, m, i)])
  }

  /** messageDao.upsert by primary key; a message without an id gets a key of its own. */
  function Upserted(s: State, room: string, m: Message, ms: int): State {
    s.(rows := s.rows[(if m.id.Missing? then Auto(ms) else ById(m.id)) := Row(room, m)])
  }

  function Placed(list: seq<Message>, m: Message, matched: int): seq<Message> {
    if 0 <= matched < |list| then list[matched := m.(status := Sent)] else list + [m.(status := Sent)]
  }

  /** The last step of an incoming message, after all its awaits. */
  function Finished(s: State, p: int): State
    requires p in s.incoming
  {
    var c := s.incoming[p];
    var t := s.(incoming := s.incoming - {p});
    var list := ListOf(s, c.room);
    if !c.m.id.Missing? && HasId(list, c.m.id) then t
    else WithList(t, c.room, Placed(list, c.m, c.matched))
  }

  predicate HasSession(sessions: seq<Session>, req: string) { exists i :: 0 <= i < |sessions| && sessions[i].req == req }

  function Acknowledged(s: State, req: string, room: string, parent: string, now: real): State {
    if req == "" || room == "" || HasSession(s.sessions, req) then s
    else
      var list := ListOf(s, room);
      var temp := Message(Stream(req), GroupMessage, ROBOT, WORKING, now, Pending, parent);
      WithList(s, room, if HasId(list, Stream(req)) then list else list + [temp])
        .(sessions := s.sessions + [Session(req, room, parent, false, "")])
  }

  datatype Event = StepEvent | DoneEvent(text: string) | ErrorEvent(text: string)

  function Shown(m: Message, e: Event, now: real): Message {
    match e
    case StepEvent => m.(content := WORKING, status := Pending, timestamp := now)
    case DoneEvent(text) => m.(content := if text != "" then text else m.content, status := Sent, timestamp := now)
    case ErrorEvent(text) => m.(content := if text != "" then text else m.content, status := Failed, timestamp := now)
  }

  function Streamed(s: State, req: string, e: Event, now: real): State {
    var k := FirstIndex(s.sessions, (x: Session) => x.req == req);
    if k == -1 then s
    else
      var x := s.sessions[k];
      var list := ListOf(s, x.room);
      var i := FirstIndex(list, (m: Message) => m.id == Stream(req));
      var t := if i == -1 then s else WithList(s, x.room, list[i := Shown(list[i], e, now)]);
      if e.StepEvent? then t
      else t.(sessions := s.sessions[k := x.(finalized := true, finalText := e.text)])
  }

  /** The answer of the paged query: rows of the room, none twice. */
  predicate Selection(s: State, room: string, keys: seq<Key>) {
    && (forall i :: 0 <= i < |keys| ==> keys[i] in s.rows && s.rows[keys[i]].room == room)
    && (forall i, j :: 0 <= i < j < |keys| ==> keys[i] != keys[j])
  }

  function MessagesAt(rows: map<Key, Row>, keys: seq<Key>): seq<Message>
    requires forall i :: 0 <= i < |keys| ==> keys[i] in rows
  {
    seq(|keys|, i requires 0 <= i < |keys| => rows[keys[i]].m)
  }

  function LoadBegun(s: State, l: int, room: string, mode: Mode, keys: seq<Key>): State
    requires Selection(s, room, keys)
  {
    s.(loads := s.loads[l := Load(room, mode, MessagesAt(s.rows, keys))])
  }

  predicate Streaming(sessions: seq<Session>, room: string, loaded: seq<Message>, m: Message) {
    m.id.Stream? && !HasId(loaded, m.id) && OpenIn(sessions, room, m.id.req)
  }

  predicate OpenIn(sessions: seq<Session>, room: string, req: string) {
    exists i :: 0 <= i < |sessions| && sessions[i].room == room && sessions[i].req == req
  }

  function LoadFinished(s: State, l: int): State
    requires l in s.loads
  {
    var c := s.loads[l];
    var list := ListOf(s, c.room);
    var t := s.(loads := s.loads - {l});
    if c.mode.Prepend? then WithList(t, c.room, Kept(c.loaded, (m: Message) => !HasId(list, m.id)) + list)
    else WithList(t, c.room, c.loaded + Kept(list, (m: Message) => Streaming(s.sessions, c.room, c.loaded, m)))
  }

  datatype Action =
    | Send(room: string, me: string, kind: Kind, content: string, parent: string, ms: int)
    | Begin(p: int, room: string, m: Message, me: string)
    | Save(room: string, m: Message, ms: int)
    | Finish(p: int)
    | Ack(req: string, room: string, parent: string, now: real)
    | StreamEvent(req: string, e: Event, now: real)
    | BeginLoad(l: int, room: string, mode: Mode, keys: seq<Key>)
    | FinishLoad(l: int)
    | Disconnect

  function Step(s: State, a: Action): State {
    match a
    case Send(room, me, kind, content, parent, ms) => SendMessage(s, room, OptimisticCopy(me, kind, content, parent, ms))
    case Begin(p, room, m, me) => if p in s.incoming then s else Begun(s, p, room, m, me)
    case Save(room, m, ms) => Upserted(s, room, m, ms)
    case Finish(p) => if p in s.incoming then Finished(s, p) else s
    case Ack(req, room, parent, now) => Acknowledged(s, req, room, parent, now)
    case StreamEvent(req, e, now) => Streamed(s, req, e, now)
    case BeginLoad(l, room, mode, keys) => if l in s.loads || !Selection(s, room, keys) then s else LoadBegun(s, l, room, mode, keys)
    case FinishLoad(l) => if l in s.loads then LoadFinished(s, l) else s
    case Disconnect => s.(sessions := [])
  }

  function Run(s: State, actions: seq<Action>): State
    decreases |actions|
  {
    if actions == [] then s else Run(Step(s, actions[0]), actions[1..])
  }

  // ------------------------------------------------------------------- lists

  lemma {:induction false} KeptFacts(list: seq<Message>, keep: Message -> bool)
    ensures forall k :: 0 <= k < |Kept(list, keep)| ==> keep(Kept(list, keep)[k]) && Kept(list, keep)[k] in list
    ensures Distinct(list) ==> Distinct(Kept(list, keep))
    decreases |list|
  {
    if list != [] {
      var front, last := list[..|list| - 1], list[|list| - 1];
      KeptFacts(front, keep);
      var kept := Kept(front, keep);
      forall k | 0 <= k < |kept| ensures kept[k] in list { assert kept[k] in front; }
      if Distinct(list) {
        forall k | 0 <= k < |kept| ensures kept[k].id != last.id {
          var i :| 0 <= i < |front| && front[i] == kept[k];
          assert list[i].id != list[|list| - 1].id;
        }
      }
    }
  }

  /** Appending keeps the ids of a list distinct if and only if the new id is not in it. */
  lemma AppendDistinctIff(list: seq<Message>, m: Message)
    requires Distinct(list)
    ensures Distinct(list + [m]) <==> !HasId(list, m.id)
  {
    var c := list + [m];
    if i :| 0 <= i < |list| && list[i].id == m.id {
      assert c[i].id == c[|list|].id;
    }
    assert forall i :: 0 <= i < |list| ==> c[i] == list[i];
  }

  lemma ReplaceDistinct(list: seq<Message>, i: nat, m: Message)
    requires Distinct(list) && i < |list| && (m.id == list[i].id || !HasId(list, m.id))
    ensures Distinct(list[i := m])
  {
  }

  // --------------------------------------------------------------- invariant

  predicate IdOk(id: Id, last: int) { !id.Missing? && (id.Sending? ==> id.ms <= last) }

  ghost predicate ListOk(list: seq<Message>, last: int) {
    Distinct(list) && forall k :: 0 <= k < |list| ==> IdOk(list[k].id, last)
  }

  predicate RowOk(rows: map<Key, Row>, k: Key) {
    k in rows ==> rows[k].m.id.Server? && k == ById(rows[k].m.id)
  }

  ghost predicate LoadOk(loaded: seq<Message>) {
    Distinct(loaded) && forall k :: 0 <= k < |loaded| ==> loaded[k].id.Server?
  }

  ghost predicate Inv(s: State, last: int) {
    && (forall room :: ListOk(ListOf(s, room), last))
    && (forall k :: RowOk(s.rows, k))
    && (forall p :: p in s.incoming ==> s.incoming[p].m.id.Server?)
    && (forall l :: l in s.loads ==> LoadOk(s.loads[l].loaded))
  }

  /** The optimistic sends come at ever later milliseconds. */
  ghost predicate Ticking(last: int, actions: seq<Action>)
    decreases |actions|
  {
    actions != [] ==> (actions[0].Send? ==> actions[0].ms > last) && Ticking(Later(last, actions[0]), actions[1..])
  }

  /** The latest time of an optimistic send so far. */
  function Later(last: int, a: Action): int { if a.Send? && a.ms > last then a.ms else last }

  function LastTick(last: int, actions: seq<Action>): int
    decreases |actions|
  {
    if actions == [] then last else LastTick(Later(last, actions[0]), actions[1..])
  }

  /** A message from the server carries an id of the server. */
  predicate FromServer(a: Action) { a.Begin? || a.Save? ==> a.m.id.Server? }

  predicate AllFromServer(actions: seq<Action>) { forall i :: 0 <= i < |actions| ==> FromServer(actions[i]) }

  /** No message of the list a send goes to was sent at the same millisecond. */
  predicate FreshSend(s: State, a: Action) { a.Send? ==> !HasId(ListOf(s, a.room), Sending(a.ms)) }

  predicate FreshSends(s: State, actions: seq<Action>)
    decreases |actions|
  {
    actions != [] ==> FreshSend(s, actions[0]) && FreshSends(Step(s, actions[0]), actions[1..])
  }

  lemma WithListInv(s: State, room: string, list: seq<Message>, last: int, next: int)
    requires Inv(s, last) && ListOk(list, next) && last <= next
    ensures Inv(WithList(s, room, list), next)
  {
    hide Distinct, RowOk, LoadOk;
    var t := WithList(s, room, list);
    forall r ensures ListOk(ListOf(t, r), next) { assert ListOk(ListOf(s, r), last); }
  }

  lemma SendInv(s: State, room: string, m: Message, last: int)
    requires Inv(s, last) && m.id.Sending? && !HasId(ListOf(s, room), m.id)
    ensures Inv(SendMessage(s, room, m), if m.id.ms > last then m.id.ms else last)
  {
    hide Distinct, RowOk, LoadOk, HasId;
    var list := ListOf(s, room);
    assert ListOk(list, last);
    AppendDistinctIff(list, m);
    WithListInv(s, room, list + [m], last, if m.id.ms > last then m.id.ms else last);
  }

  lemma ClosedInv(s: State, room: string, m: Message, last: int)
    requires Inv(s, last)
    ensures Inv(StreamClosed(s, room, m), last)
  {
    hide Inv, Distinct;
    var i := FirstIndex(s.sessions, (x: Session) => Answers(x, room, m.parent));
    if i != -1 {
      var req := s.sessions[i].req;
      var keep := (x: Message) => x.id != Stream(req);
      KeptFacts(ListOf(s, room), keep);
      ListIsOk(s, room, last);
      KeptOk(ListOf(s, room), keep, last);
      WithListInv(s, room, Kept(ListOf(s, room), keep), last, last);
      SessionsDoNotMatter(WithList(s, room, Kept(ListOf(s, room), keep)), Kept(s.sessions, (x: Session) => x.req != req), last);
    }
  }

  lemma ListIsOk(s: State, room: string, last: int)
    requires Inv(s, last)
    ensures ListOk(ListOf(s, room), last)
  {
  }

  lemma KeptOk(list: seq<Message>, keep: Message -> bool, last: int)
    requires ListOk(list, last)
    ensures ListOk(Kept(list, keep), last)
  {
    hide Distinct, Kept;
    KeptFacts(list, keep);
    var kept := Kept(list, keep);
    forall k | 0 <= k < |kept| ensures IdOk(kept[k].id, last) {
      var i :| 0 <= i < |list| && list[i] == kept[k];
    }
  }

  lemma SessionsDoNotMatter(s: State, sessions: seq<Session>, last: int)
    requires Inv(s, last)
    ensures Inv(s.(sessions := sessions), last)
  {
    hide ListOk, RowOk, LoadOk;
    var t := s.(sessions := sessions);
    forall r ensures ListOk(ListOf(t, r), last) { assert ListOk(ListOf(s, r), last); }
  }

  lemma BegunInv(s: State, p: int, room: string, m: Message, me: string, last: int)
    requires Inv(s, last) && m.id.Server?
    ensures Inv(Begun(s, p, room, m, me), last)
  {
    hide ListOk, RowOk, LoadOk, StreamClosed, Matches;
    ClosedInv(s, room, m, last);
    var t, u := StreamClosed(s, room, m), Begun(s, p, room, m, me);
    forall r ensures ListOk(ListOf(u, r), last) {
      assert ListOk(ListOf(s, r), last) && ListOk(ListOf(t, r), last);
    }
  }

  lemma SaveInv(s: State, room: string, m: Message, ms: int, last: int)
    requires Inv(s, last) && m.id.Server?
    ensures Inv(Upserted(s, room, m, ms), last)
  {
    hide ListOk, LoadOk;
    var t := Upserted(s, room, m, ms);
    forall r ensures ListOk(ListOf(t, r), last) { assert ListOk(ListOf(s, r), last); }
    forall k ensures RowOk(t.rows, k) { assert RowOk(s.rows, k); }
  }

  lemma DropIncoming(s: State, p: int, last: int)
    requires Inv(s, last)
    ensures Inv(s.(incoming := s.incoming - {p}), last) && Inv(s.(loads := s.loads - {p}), last)
  {
    hide ListOk, RowOk, LoadOk;
    var t, u := s.(incoming := s.incoming - {p}), s.(loads := s.loads - {p});
    forall r ensures ListOk(ListOf(t, r), last) && ListOk(ListOf(u, r), last) { assert ListOk(ListOf(s, r), last); }
  }

  lemma PlacedOk(list: seq<Message>, m: Message, matched: int, last: int)
    requires ListOk(list, last) && m.id.Server? && !HasId(list, m.id)
    ensures ListOk(Placed(list, m, matched), last)
  {
  }

  lemma FinishInv(s: State, p: int, last: int)
    requires Inv(s, last) && p in s.incoming
    ensures Inv(Finished(s, p), last)
  {
    hide ListOk, RowOk, LoadOk, Placed, HasId;
    var c := s.incoming[p];
    var list := ListOf(s, c.room);
    DropIncoming(s, p, last);
    ListIsOk(s, c.room, last);
    if !HasId(list, c.m.id) {
      PlacedOk(list, c.m, c.matched, last);
      WithListInv(s.(incoming := s.incoming - {p}), c.room, Placed(list, c.m, c.matched), last, last);
    }
  }

  lemma AckInv(s: State, req: string, room: string, parent: string, now: real, last: int)
    requires Inv(s, last)
    ensures Inv(Acknowledged(s, req, room, parent, now), last)
  {
    hide Inv, Distinct, HasId;
    var list := ListOf(s, room);
    var temp := Message(Stream(req), GroupMessage, ROBOT, WORKING, now, Pending, parent);
    ListIsOk(s, room, last);
    AppendDistinctIff(list, temp);
    var after := if HasId(list, Stream(req)) then list else list + [temp];
    WithListInv(s, room, after, last, last);
    SessionsDoNotMatter(WithList(s, room, after), s.sessions + [Session(req, room, parent, false, "")], last);
  }

  lemma StreamedInv(s: State, req: string, e: Event, now: real, last: int)
    requires Inv(s, last)
    ensures Inv(Streamed(s, req, e, now), last)
  {
    hide Inv, Distinct, Shown;
    var k := FirstIndex(s.sessions, (x: Session) => x.req == req);
    if k != -1 {
      var x := s.sessions[k];
      var list := ListOf(s, x.room);
      var i := FirstIndex(list, (m: Message) => m.id == Stream(req));
      ListIsOk(s, x.room, last);
      var t := s;
      if i != -1 {
        ShownKeepsId(list[i], e, now);
        ReplaceDistinct(list, i, Shown(list[i], e, now));
        WithListInv(s, x.room, list[i := Shown(list[i], e, now)], last, last);
        t := WithList(s, x.room, list[i := Shown(list[i], e, now)]);
      }
      if !e.StepEvent? {
        SessionsDoNotMatter(t, s.sessions[k := x.(finalized := true, finalText := e.text)], last);
      }
    }
  }

  /**
   * What a stream event does: the placeholder of an open stream shows that work goes on, or the end with its text if
   * it has one, in place and at the event's time; nothing else of any list changes, and an end is noted in the session.
   */
  lemma EventShows(s: State, req: string, e: Event, now: real, k: nat, i: nat)
    requires k < |s.sessions| && s.sessions[k].req == req && forall j :: 0 <= j < k ==> s.sessions[j].req != req
    requires var list := ListOf(s, s.sessions[k].room);
             i < |list| && list[i].id == Stream(req) && forall j :: 0 <= j < i ==> list[j].id != Stream(req)
    ensures var t, room := Streamed(s, req, e, now), s.sessions[k].room;
            var list, after := ListOf(s, room), ListOf(t, room);
            && |after| == |list| && (forall j :: 0 <= j < |list| && j != i ==> after[j] == list[j])
            && (forall r :: r != room ==> ListOf(t, r) == ListOf(s, r))
            && after[i].id == list[i].id && after[i].from == list[i].from && after[i].kind == list[i].kind && after[i].parent == list[i].parent
            && after[i].timestamp == now
            && after[i].status == (match e case StepEvent => Pending case DoneEvent(_) => Sent case ErrorEvent(_) => Failed)
            && after[i].content == (if e.StepEvent? then "正在处理中..." else if e.text != "" then e.text else list[i].content)
            && (if e.StepEvent? then t.sessions == s.sessions
                else t.sessions == s.sessions[k := s.sessions[k].(finalized := true, finalText := e.text)])
  {
    hide FirstIndex, Shown;
    var list := ListOf(s, s.sessions[k].room);
    FirstSession(s.sessions, req, k);
    FirstPlaceholder(list, req, i);
    ShowsEnd(list[i], e, now);
  }

  lemma FirstSession(sessions: seq<Session>, req: string, k: nat)
    requires k < |sessions| && sessions[k].req == req && forall j :: 0 <= j < k ==> sessions[j].req != req
    ensures FirstIndex(sessions, (x: Session) => x.req == req) == k
  {
  }

  lemma FirstPlaceholder(list: seq<Message>, req: string, i: nat)
    requires i < |list| && list[i].id == Stream(req) && forall j :: 0 <= j < i ==> list[j].id != Stream(req)
    ensures FirstIndex(list, (m: Message) => m.id == Stream(req)) == i
  {
  }

  lemma ShowsEnd(m: Message, e: Event, now: real)
    ensures var x := Shown(m, e, now);
            && x.id == m.id && x.from == m.from && x.kind == m.kind && x.parent == m.parent && x.timestamp == now
            && x.status == (match e case StepEvent => Pending case DoneEvent(_) => Sent case ErrorEvent(_) => Failed)
            && x.content == if e.StepEvent? then "正在处理中..." else if e.text != "" then e.text else m.content
  {
  }

  lemma ShownKeepsId(m: Message, e: Event, now: real)
    ensures Shown(m, e, now).id == m.id
  {
  }

  lemma MessagesAtOk(rows: map<Key, Row>, keys: seq<Key>)
    requires forall k :: RowOk(rows, k)
    requires forall i :: 0 <= i < |keys| ==> keys[i] in rows
    requires forall i, j :: 0 <= i < j < |keys| ==> keys[i] != keys[j]
    ensures LoadOk(MessagesAt(rows, keys))
  {
    var ms := MessagesAt(rows, keys);
    forall i | 0 <= i < |ms| ensures ms[i].id.Server? && keys[i] == ById(ms[i].id) { assert RowOk(rows, keys[i]); }
  }

  lemma LoadBegunInv(s: State, l: int, room: string, mode: Mode, keys: seq<Key>, last: int)
    requires Inv(s, last) && Selection(s, room, keys)
    ensures Inv(LoadBegun(s, l, room, mode, keys), last)
  {
    hide ListOk, RowOk, LoadOk, MessagesAt;
    MessagesAtOk(s.rows, keys);
    var t := LoadBegun(s, l, room, mode, keys);
    forall r ensures ListOk(ListOf(t, r), last) { assert ListOk(ListOf(s, r), last); }
  }

  lemma LoadedOk(loaded: seq<Message>, last: int)
    requires LoadOk(loaded)
    ensures ListOk(loaded, last)
  {
  }

  lemma JoinOk(a: seq<Message>, b: seq<Message>, last: int)
    requires ListOk(a, last) && ListOk(b, last) && forall k :: 0 <= k < |a| ==> !HasId(b, a[k].id)
    ensures ListOk(a + b, last)
  {
  }

  lemma LoadFinishedInv(s: State, l: int, last: int)
    requires Inv(s, last) && l in s.loads
    ensures Inv(LoadFinished(s, l), last)
  {
    hide ListOk, RowOk, LoadOk, HasId, Kept, Streaming;
    var c := s.loads[l];
    var list := ListOf(s, c.room);
    DropIncoming(s, l, last);
    ListIsOk(s, c.room, last);
    LoadedOk(c.loaded, last);
    if c.mode.Prepend? {
      var keep := (m: Message) => !HasId(list, m.id);
      KeptFacts(c.loaded, keep);
      KeptOk(c.loaded, keep, last);
      JoinOk(Kept(c.loaded, keep), list, last);
      WithListInv(s.(loads := s.loads - {l}), c.room, Kept(c.loaded, keep) + list, last, last);
    } else {
      var keep := (m: Message) => Streaming(s.sessions, c.room, c.loaded, m);
      KeptFacts(list, keep);
      KeptOk(list, keep, last);
      NoneStreaming(s.sessions, c.room, c.loaded, Kept(list, keep));
      JoinOk(c.loaded, Kept(list, keep), last);
      WithListInv(s.(loads := s.loads - {l}), c.room, c.loaded + Kept(list, keep), last, last);
    }
  }

  lemma NoneStreaming(sessions: seq<Session>, room: string, loaded: seq<Message>, kept: seq<Message>)
    requires forall k :: 0 <= k < |kept| ==> Streaming(sessions, room, loaded, kept[k])
    ensures forall k :: 0 <= k < |loaded| ==> !HasId(kept, loaded[k].id)
  {
  }

  lemma StepInv(s: State, last: int, a: Action)
    requires Inv(s, last) && FreshSend(s, a) && FromServer(a)
    ensures Inv(Step(s, a), Later(last, a))
  {
    hide Inv, SendMessage, Begun, Upserted, Finished, Acknowledged, Streamed, LoadBegun, LoadFinished, Selection, HasId, ListOf;
    match a {
      case Send(room, me, kind, content, parent, ms) => SendInv(s, room, OptimisticCopy(me, kind, content, parent, ms), last);
      case Begin(p, room, m, me) => if p !in s.incoming { BegunInv(s, p, room, m, me, last); }
      case Save(room, m, ms) => SaveInv(s, room, m, ms, last);
      case Finish(p) => if p in s.incoming { FinishInv(s, p, last); }
      case Ack(req, room, parent, now) => AckInv(s, req, room, parent, now, last);
      case StreamEvent(req, e, now) => StreamedInv(s, req, e, now, last);
      case BeginLoad(l, room, mode, keys) =>
        if l !in s.loads && Selection(s, room, keys) { LoadBegunInv(s, l, room, mode, keys, last); }
      case FinishLoad(l) => if l in s.loads { LoadFinishedInv(s, l, last); }
      case Disconnect => SessionsDoNotMatter(s, [], last);
    }
  }

  lemma {:induction false} RunInv(s: State, last: int, actions: seq<Action>)
    requires Inv(s, last) && FreshSends(s, actions) && AllFromServer(actions)
    ensures Inv(Run(s, actions), LastTick(last, actions))
    decreases |actions|
  {
    hide Inv, Step, FreshSend, FromServer;
    if actions != [] {
      assert FromServer(actions[0]);
      StepInv(s, last, actions[0]);
      RunInv(Step(s, actions[0]), Later(last, actions[0]), actions[1..]);
    }
  }

  /** Ever later sends are fresh: every message in a list was sent no later than the last send. */
  lemma {:induction false} TickingIsFresh(s: State, last: int, actions: seq<Action>)
    requires Inv(s, last) && Ticking(last, actions) && AllFromServer(actions)
    ensures FreshSends(s, actions)
    decreases |actions|
  {
    hide Inv, Step, FromServer, HasId;
    if actions != [] {
      assert FromServer(actions[0]);
      if actions[0].Send? { LaterIsFresh(s, last, actions[0].room, actions[0].ms); }
      StepInv(s, last, actions[0]);
      TickingIsFresh(Step(s, actions[0]), Later(last, actions[0]), actions[1..]);
    }
  }

  lemma LaterIsFresh(s: State, last: int, room: string, ms: int)
    requires Inv(s, last) && ms > last
    ensures !HasId(ListOf(s, room), Sending(ms))
  {
    assert ListOk(ListOf(s, room), last);
  }

  // ---------------------------------------------------------------- theorems

  ghost predicate AllDistinct(s: State) { forall room :: Distinct(ListOf(s, room)) }

  /**
   * On every run with increasing send times the ids in each conversation's list stay pairwise distinct, however
   * the awaits interleave.
   */
  lemma IdsStayDistinct(actions: seq<Action>, start: int)
    requires Ticking(start, actions) && AllFromServer(actions)
    ensures AllDistinct(Run(EMPTY, actions))
  {
    hide Run, Distinct, Ticking, FreshSends, ListOf;
    EmptyInv(start);
    TickingIsFresh(EMPTY, start, actions);
    RunInv(EMPTY, start, actions);
    InvDistinct(Run(EMPTY, actions), LastTick(start, actions));
  }

  lemma InvDistinct(s: State, last: int)
    requires Inv(s, last)
    ensures AllDistinct(s)
  {
    forall room ensures Distinct(ListOf(s, room)) { assert ListOk(ListOf(s, room), last); }
  }

  /** All lists are free of repeated ids at every moment of a run if and only if no send finds its millisecond taken in its list. */
  lemma {:induction false} DistinctThroughoutIff(actions: seq<Action>)
    requires AllFromServer(actions)
    ensures (forall n :: 0 <= n <= |actions| ==> AllDistinct(Run(EMPTY, actions[..n]))) <==> FreshSends(EMPTY, actions)
  {
    hide Run, AllDistinct, FreshSends;
    EmptyInv(0);
    if FreshSends(EMPTY, actions) {
      forall n | 0 <= n <= |actions| ensures AllDistinct(Run(EMPTY, actions[..n])) {
        FreshPrefix(EMPTY, actions, n);
        RunInv(EMPTY, 0, actions[..n]);
        InvDistinct(Run(EMPTY, actions[..n]), LastTick(0, actions[..n]));
      }
    }
    if forall n :: 0 <= n <= |actions| ==> AllDistinct(Run(EMPTY, actions[..n])) {
      DistinctIsFresh(EMPTY, 0, actions);
    }
  }

  lemma {:induction false} FreshPrefix(s: State, actions: seq<Action>, n: nat)
    requires n <= |actions| && FreshSends(s, actions)
    ensures FreshSends(s, actions[..n])
    decreases n
  {
    hide Step, FreshSend;
    if n > 0 {
      assert actions[..n][1..] == actions[1..][..n - 1];
      FreshPrefix(Step(s, actions[0]), actions[1..], n - 1);
    }
  }

  lemma {:induction false} DistinctIsFresh(s: State, last: int, actions: seq<Action>)
    requires Inv(s, last) && AllFromServer(actions)
    requires forall n :: 0 <= n <= |actions| ==> AllDistinct(Run(s, actions[..n]))
    ensures FreshSends(s, actions)
    decreases |actions|
  {
    hide Inv, Step, FromServer, AllDistinct, FreshSend, Run;
    if actions != [] {
      var a, rest := actions[0], actions[1..];
      assert FromServer(a);
      assert AllDistinct(Run(s, actions[..1])) && actions[..1] == [a] && [a] == [a] + [];
      RunCons(s, a, []);
      RunNone(Step(s, a));
      InvDistinct(s, last);
      DistinctStep(s, a);
      StepInv(s, last, a);
      forall n | 0 <= n <= |rest| ensures AllDistinct(Run(Step(s, a), rest[..n])) {
        assert actions[..n + 1] == [a] + rest[..n];
        RunCons(s, a, rest[..n]);
      }
      DistinctIsFresh(Step(s, a), Later(last, a), rest);
    }
  }

  lemma DistinctStep(s: State, a: Action)
    requires AllDistinct(s) && AllDistinct(Step(s, a))
    ensures FreshSend(s, a)
  {
    hide Distinct, HasId;
    if a.Send? {
      assert Distinct(ListOf(s, a.room)) && Distinct(ListOf(Step(s, a), a.room));
      AppendDistinctIff(ListOf(s, a.room), OptimisticCopy(a.me, a.kind, a.content, a.parent, a.ms));
    }
  }

  lemma RunCons(s: State, a: Action, rest: seq<Action>)
    ensures Run(s, [a] + rest) == Run(Step(s, a), rest)
  {
    hide Step;
    assert ([a] + rest)[1..] == rest;
  }

  lemma RunNone(s: State)
    ensures Run(s, []) == s
  {
  }

  lemma EmptyInv(last: int)
    ensures Inv(EMPTY, last)
  {
  }

  /** Two optimistic sends to one room in one millisecond give its list the same id twice. */
  lemma SameMillisecond(room: string, me: string, kind: Kind, a: string, b: string, parent: string, ms: int)
    ensures var x, y := Send(room, me, kind, a, parent, ms), Send(room, me, kind, b, parent, ms);
            !Distinct(ListOf(Run(EMPTY, [x, y]), room))
  {
    hide Run;
    var x, y := Send(room, me, kind, a, parent, ms), Send(room, me, kind, b, parent, ms);
    var list := ListOf(Step(Step(EMPTY, x), y), room);
    assert list == [OptimisticCopy(me, kind, a, parent, ms), OptimisticCopy(me, kind, b, parent, ms)];
    assert list[0].id == list[1].id;
    assert [x, y] == [x] + [y] && [y] == [y] + [];
    RunCons(EMPTY, x, [y]);
    RunCons(Step(EMPTY, x), y, []);
    RunNone(Step(Step(EMPTY, x), y));
  }

  lemma RunFour(s: State, a: Action, b: Action, c: Action, d: Action)
    ensures Run(s, [a, b, c, d]) == Step(Step(Step(Step(s, a), b), c), d)
  {
    hide Run, Step;
    assert [a, b, c, d] == [a] + [b, c, d] && [b, c, d] == [b] + [c, d] && [c, d] == [c] + [d] && [d] == [d] + [];
    RunCons(s, a, [b, c, d]);
    RunCons(Step(s, a), b, [c, d]);
    RunCons(Step(Step(s, a), b), c, [d]);
    RunCons(Step(Step(Step(s, a), b), c), d, []);
    RunNone(Step(Step(Step(Step(s, a), b), c), d));
  }

  /** An incoming message keeps a list's ids distinct exactly when it has an id, or is the first without one, or replaces that one. */
  lemma IncomingKeepsDistinctIff(s: State, p: int)
    requires p in s.incoming && Distinct(ListOf(s, s.incoming[p].room))
    ensures var c := s.incoming[p];
            var list := ListOf(s, c.room);
            Distinct(ListOf(Finished(s, p), c.room))
            <==> !c.m.id.Missing? || !HasId(list, Missing) || (0 <= c.matched < |list| && list[c.matched].id.Missing?)
  {
    var c := s.incoming[p];
    var list := ListOf(s, c.room);
    var m := c.m.(status := Sent);
    if c.m.id.Missing? || !HasId(list, c.m.id) {
      var after := ListOf(Finished(s, p), c.room);
      assert after == Placed(list, c.m, c.matched);
      if 0 <= c.matched < |list| {
        ReplaceDistinctIff(list, c.matched, m);
      } else {
        AppendDistinctIff(list, m);
      }
    }
  }

  lemma ReplaceDistinctIff(list: seq<Message>, i: nat, m: Message)
    requires Distinct(list) && i < |list|
    ensures Distinct(list[i := m]) <==> m.id == list[i].id || !HasId(list, m.id)
  {
    var after := list[i := m];
    if j :| 0 <= j < |list| && list[j].id == m.id {
      if j != i {
        assert after[j].id == after[i].id;
      }
    }
  }

  /**
   * The index of the optimistic copy is taken before the awaits. The message that gives way to the incoming
   * one is whatever stands at the index by then: the copy goes and nothing else is lost exactly when the copy
   * still stands there.
   */
  lemma StaleIndexOverwrites(list: seq<Message>, m: Message, matched: nat, copy: Id)
    requires Distinct(list) && matched < |list| && HasId(list, copy) && !HasId(list, m.id)
    ensures var after := Placed(list, m, matched);
            && HasId(after, m.id) && !HasId(after, list[matched].id)
            && (forall id :: id != list[matched].id && id != m.id ==> (HasId(after, id) <==> HasId(list, id)))
            && (!HasId(after, copy) <==> list[matched].id == copy)
  {
    var after := Placed(list, m, matched);
    assert after[matched].id == m.id;
    assert forall i :: 0 <= i < |list| && i != matched ==> after[i] == list[i];
    forall id | id != list[matched].id && id != m.id ensures HasId(after, id) <==> HasId(list, id) {
      if i :| 0 <= i < |list| && list[i].id == id { assert after[i].id == id; }
      if i :| 0 <= i < |after| && after[i].id == id { assert list[i].id == id; }
    }
  }

  /** The server's copy of an own message: it matches the optimistic one. */
  function Echo(copy: Message, s: string): Message { copy.(id := Server(s)) }

  /** The actions on which a kept index overwrites a message: an older page is prepended between an own message's first and last step. */
  function PageBetween(room: string, older: Message, me: string, kind: Kind, content: string, parent: string, ms: int, id: string): seq<Action> {
    [Save(room, older, 0), Send(room, me, kind, content, parent, ms),
     Begin(0, room, Echo(OptimisticCopy(me, kind, content, parent, ms), id), me),
     BeginLoad(0, room, Prepend, [ById(older.id)]), FinishLoad(0), Finish(0)]
  }

  /** On that run the prepended message is gone from the list, and the optimistic copy is still in it. */
  lemma PageBetweenOverwrites(room: string, older: Message, me: string, kind: Kind, content: string, parent: string, ms: int, id: string)
    requires room != "" && me != "" && me != ROBOT && older.id.Server? && older.id != Server(id)
    ensures var list := ListOf(Run(EMPTY, PageBetween(room, older, me, kind, content, parent, ms, id)), room);
            !HasId(list, older.id) && HasId(list, Sending(ms)) && HasId(list, Server(id))
  {
    hide Run, Step, ROBOT;
    var copy := OptimisticCopy(me, kind, content, parent, ms);
    var m := Echo(copy, id);
    ToMidState(room, older, me, kind, content, parent, ms, id);
    FromMidState(room, older, copy, m);
    RunSix(EMPTY, Save(room, older, 0), Send(room, me, kind, content, parent, ms), Begin(0, room, m, me),
           BeginLoad(0, room, Prepend, [ById(older.id)]), FinishLoad(0), Finish(0));
    var list := [m.(status := Sent), copy];
    assert list[0].id == Server(id) && list[1].id == Sending(ms);
  }

  /** The own message waits, with the index of its copy; the older one is only stored. */
  function MidState(room: string, older: Message, copy: Message, m: Message): State {
    State(map[room := [copy]], [], map[ById(older.id) := Row(room, older)], map[0 := Incoming(room, m, 0)], map[])
  }

  lemma ToMidState(room: string, older: Message, me: string, kind: Kind, content: string, parent: string, ms: int, id: string)
    requires room != "" && me != "" && me != ROBOT && older.id.Server?
    ensures var copy := OptimisticCopy(me, kind, content, parent, ms);
            var m := Echo(copy, id);
            Step(Step(Step(EMPTY, Save(room, older, 0)), Send(room, me, kind, content, parent, ms)), Begin(0, room, m, me))
            == MidState(room, older, copy, m)
  {
    hide ROBOT, Matches;
    var copy := OptimisticCopy(me, kind, content, parent, ms);
    var m := Echo(copy, id);
    var s1 := Step(EMPTY, Save(room, older, 0));
    var s2 := Step(s1, Send(room, me, kind, content, parent, ms));
    assert ListOf(s2, room) == [copy] && s2.lists == map[room := [copy]];
    CopyMatches(copy, m);
  }

  lemma FromMidState(room: string, older: Message, copy: Message, m: Message)
    requires older.id.Server? && m.id.Server? && older.id != m.id && copy.id.Sending?
    ensures var s := MidState(room, older, copy, m);
            ListOf(Step(Step(Step(s, BeginLoad(0, room, Prepend, [ById(older.id)])), FinishLoad(0)), Finish(0)), room)
            == [m.(status := Sent), copy]
  {
    hide Kept;
    var key := ById(older.id);
    var s3 := MidState(room, older, copy, m);
    assert Selection(s3, room, [key]) && MessagesAt(s3.rows, [key]) == [older];
    var s4 := Step(s3, BeginLoad(0, room, Prepend, [key]));
    assert s4 == s3.(loads := map[0 := Load(room, Prepend, [older])]);
    var s5 := Step(s4, FinishLoad(0));
    KeepsOne(older, copy);
    assert ListOf(s5, room) == [older] + [copy] && s5.incoming == s3.incoming;
    assert !HasId([older] + [copy], m.id);
  }

  lemma CopyMatches(copy: Message, m: Message)
    requires Temporary(copy.id) && copy.status.Pending? && m.kind == copy.kind && m.content == copy.content && m.timestamp == copy.timestamp
    ensures LastIndex([copy], (x: Message) => Matches(x, m)) == 0
  {
  }

  lemma KeepsOne(a: Message, b: Message)
    requires a.id != b.id
    ensures Kept([a], (m: Message) => !HasId([b], m.id)) == [a]
  {
    assert [a][..0] == [] && !HasId([b], a.id);
  }

  lemma RunSix(s: State, a: Action, b: Action, c: Action, d: Action, e: Action, f: Action)
    ensures Run(s, [a, b, c, d, e, f]) == Step(Step(Step(Step(Step(Step(s, a), b), c), d), e), f)
  {
    hide Run, Step;
    assert [a, b, c, d, e, f] == [a] + [b, c, d, e, f] && [b, c, d, e, f] == [b] + [c, d, e, f];
    RunCons(s, a, [b, c, d, e, f]);
    RunCons(Step(s, a), b, [c, d, e, f]);
    RunFour(Step(Step(s, a), b), c, d, e, f);
  }

  /** A finished incoming message is in its list once, as sent. */
  lemma IncomingArrives(s: State, p: int)
    requires p in s.incoming && !s.incoming[p].m.id.Missing?
    ensures HasId(ListOf(Finished(s, p), s.incoming[p].room), s.incoming[p].m.id)
    ensures p !in Finished(s, p).incoming
    ensures forall room :: room != s.incoming[p].room ==> ListOf(Finished(s, p), room) == ListOf(s, room)
  {
    var c := s.incoming[p];
    var list := ListOf(s, c.room);
    if !HasId(list, c.m.id) {
      var after := Placed(list, c.m, c.matched);
      assert after[if 0 <= c.matched < |list| then c.matched else |list|].id == c.m.id;
    }
  }

  /** A prepend keeps the whole list as a suffix and adds exactly the loaded messages it did not have. */
  lemma PrependAddsMissing(s: State, l: int, id: Id)
    requires l in s.loads && s.loads[l].mode.Prepend?
    ensures var c := s.loads[l];
            var before, after := ListOf(s, c.room), ListOf(LoadFinished(s, l), c.room);
            && |before| <= |after| && after[|after| - |before|..] == before
            && (HasId(after, id) <==> HasId(before, id) || HasId(c.loaded, id))
  {
    var c := s.loads[l];
    var before, after := ListOf(s, c.room), ListOf(LoadFinished(s, l), c.room);
    var keep := (m: Message) => !HasId(before, m.id);
    var added := Kept(c.loaded, keep);
    assert after == added + before;
    KeptIds(c.loaded, keep, id);
    JoinIds(added, before, id);
  }

  lemma {:induction false} KeptIds(list: seq<Message>, keep: Message -> bool, id: Id)
    requires forall a: Message, b: Message :: a.id == b.id ==> keep(a) == keep(b)
    ensures HasId(Kept(list, keep), id) <==> exists i :: 0 <= i < |list| && list[i].id == id && keep(list[i])
    decreases |list|
  {
    if list != [] {
      var front, last := list[..|list| - 1], list[|list| - 1];
      KeptIds(front, keep, id);
      JoinIds(Kept(front, keep), if keep(last) then [last] else [], id);
      if i :| 0 <= i < |front| && front[i].id == id && keep(front[i]) { assert list[i].id == id && keep(list[i]); }
      if keep(last) && last.id == id { assert list[|list| - 1].id == id; assert [last][0].id == id; }
    }
  }

  lemma JoinIds(a: seq<Message>, b: seq<Message>, id: Id)
    ensures HasId(a + b, id) <==> HasId(a, id) || HasId(b, id)
  {
    var c := a + b;
    if i :| 0 <= i < |a| && a[i].id == id { assert c[i].id == id; }
    if i :| 0 <= i < |b| && b[i].id == id { assert c[|a| + i].id == id; }
  }

  lemma {:induction false} KeptSessions(sessions: seq<Session>, req: string, x: Session)
    ensures x in Kept(sessions, (y: Session) => y.req != req) <==> x in sessions && x.req != req
    decreases |sessions|
  {
    if sessions != [] {
      KeptSessions(sessions[..|sessions| - 1], req, x);
      assert sessions == sessions[..|sessions| - 1] + [sessions[|sessions| - 1]];
    }
  }

  /** The robot's stored reply ends the stream it answers: placeholder and session go, every other message and session stays. */
  lemma ReplyEndsStream(s: State, room: string, m: Message, i: nat, id: Id, x: Session)
    requires m.from == ROBOT && m.kind.GroupMessage? && m.parent != ""
    requires i < |s.sessions| && Answers(s.sessions[i], room, m.parent)
    requires forall j :: 0 <= j < i ==> !Answers(s.sessions[j], room, m.parent)
    ensures var req, t := s.sessions[i].req, StreamClosed(s, room, m);
            && (HasId(ListOf(t, room), id) <==> HasId(ListOf(s, room), id) && id != Stream(req))
            && (x in t.sessions <==> x in s.sessions && x.req != req)
  {
    hide Kept, HasId, ROBOT;
    var k := FirstIndex(s.sessions, (y: Session) => Answers(y, room, m.parent));
    assert k == i;
    var req := s.sessions[i].req;
    KeptSessions(s.sessions, req, x);
    KeptIds(ListOf(s, room), (y: Message) => y.id != Stream(req), id);
    HasIdIs(ListOf(s, room), id);
  }

  /**
   * What each event does to the streams' sessions: an acknowledgement with a request and a room opens one unless the
   * request has one; the robot's reply in a group closes those of the first stream it answers; an end marks the first
   * session of its request; a disconnection closes all; no other event touches them.
   */
  lemma SessionsFollow(s: State, a: Action, x: Session)
    ensures var t := Step(s, a).sessions;
            match a
            case Ack(req, room, parent, _) =>
              t == (if req != "" && room != "" && (forall i :: 0 <= i < |s.sessions| ==> s.sessions[i].req != req)
                    then s.sessions + [Session(req, room, parent, false, "")] else s.sessions)
            case Disconnect => t == []
            case Begin(p, room, m, _) =>
              if p !in s.incoming && room != "" && m.from == "00000000-0000-0000-0000-00000000a1b2" && m.kind == GroupMessage && m.parent != ""
              then
                forall i :: 0 <= i < |s.sessions| && s.sessions[i].room == room && s.sessions[i].parent == m.parent
                            && (forall j :: 0 <= j < i ==> !(s.sessions[j].room == room && s.sessions[j].parent == m.parent)) ==>
                  (x in t <==> x in s.sessions && x.req != s.sessions[i].req)
              else t == s.sessions
            case StreamEvent(req, e, _) =>
              e.StepEvent? || (forall i :: 0 <= i < |s.sessions| ==> s.sessions[i].req != req) ==> t == s.sessions
            case _ => t == s.sessions
  {
    hide HasId, Kept, Matches, Placed, Streaming, MessagesAt, Shown, OptimisticCopy;
    match a
    case Begin(p, room, m, _) =>
      forall i | 0 <= i < |s.sessions| && Answers(s.sessions[i], room, m.parent) && (forall j :: 0 <= j < i ==> !Answers(s.sessions[j], room, m.parent))
        ensures FirstIndex(s.sessions, (y: Session) => Answers(y, room, m.parent)) == i
      {
      }
      forall i | 0 <= i < |s.sessions| { KeptSessions(s.sessions, s.sessions[i].req, x); }
    case _ =>
  }

  /** What an incoming message remembers at its first await: the newest copy of itself, if it is one's own and there is one. */
  lemma BeginRemembers(s: State, p: int, room: string, m: Message, me: string)
    requires p !in s.incoming && room != ""
    ensures var t := Step(s, Begin(p, room, m, me));
            var list := ListOf(t, room);
            && p in t.incoming && t.incoming[p].room == room && t.incoming[p].m == m
            && var i := t.incoming[p].matched;
               && -1 <= i < |list|
               && (me == "" || m.from != me ==> i == -1)
               && (me != "" && m.from == me ==> (i >= 0 ==> LooksLike(list[i], m)) && forall j :: i < j < |list| ==> !LooksLike(list[j], m))
  {
    hide StreamClosed;
    forall x: Message ensures Matches(x, m) <==> LooksLike(x, m) { }
    hide Matches, LooksLike;
  }

  lemma HasIdIs(list: seq<Message>, id: Id)
    ensures HasId(list, id) <==> exists i :: 0 <= i < |list| && list[i].id == id
  {
  }

  /** A replacing load shows the stored messages, then exactly the placeholders of streams still open in the room. */
  lemma ReplaceShowsStored(s: State, l: int, id: Id)
    requires l in s.loads && s.loads[l].mode.Replace?
    ensures var c := s.loads[l];
            var before, after := ListOf(s, c.room), ListOf(LoadFinished(s, l), c.room);
            && c.loaded <= after
            && (HasId(after, id)
                <==> HasId(c.loaded, id)
                     || (id.Stream? && HasId(before, id)
                         && exists i :: 0 <= i < |s.sessions| && s.sessions[i].room == c.room && s.sessions[i].req == id.req))
  {
    var c := s.loads[l];
    var before := ListOf(s, c.room);
    var keep := (m: Message) => Streaming(s.sessions, c.room, c.loaded, m);
    KeptIds(before, keep, id);
    JoinIds(c.loaded, Kept(before, keep), id);
    if i :| 0 <= i < |before| && before[i].id == id { assert keep(before[i]) <==> Streaming(s.sessions, c.room, c.loaded, before[i]); }
  }

  // --------------------------------------------------------------- the store

  method Filter(list: seq<Message>, keep: Message -> bool) returns (kept: seq<Message>)
    ensures kept == Kept(list, keep)
  {
    kept := [];
    for i := 0 to |list|
      invariant kept == Kept(list[..i], keep)
    {
      assert list[..i + 1][..i] == list[..i] && list[..i + 1][i] == list[i];
      if keep(list[i]) {
        kept := kept + [list[i]];
      }
    }
    assert list[..|list|] == list;
  }

  /** An unsent copy of the same kind and text, no more than ten seconds away. */
  predicate LooksLike(x: Message, m: Message) {
    && (x.id.Sending? || x.id.Stream?) && x.status == Pending && x.kind == m.kind && x.content == m.content
    && -10.0 <= x.timestamp - m.timestamp <= 10.0
  }

  /** The search from the newest message for the optimistic copy of an incoming one. */
  method FindCopy(list: seq<Message>, m: Message) returns (matched: int)
    ensures matched == LastIndex(list, (x: Message) => Matches(x, m))
    ensures -1 <= matched < |list| && (matched >= 0 ==> LooksLike(list[matched], m))
    ensures forall i :: matched < i < |list| ==> !LooksLike(list[i], m)
  {
    forall x: Message ensures Matches(x, m) <==> LooksLike(x, m) { }
    hide Matches, LooksLike;
    var i := |list|;
    assert list[..i] == list;
    while i > 0
      invariant 0 <= i <= |list|
      invariant LastIndex(list, (x: Message) => Matches(x, m)) == LastIndex(list[..i], (x: Message) => Matches(x, m))
    {
      assert list[..i][i - 1] == list[i - 1] && list[..i][..i - 1] == list[..i - 1];
      i := i - 1;
      if Matches(list[i], m) {
        return i;
      }
    }
    return -1;
  }

  class ChatStore {
    var messages: map<string, seq<Message>>
    var sessions: seq<Session>
    var rows: map<Key, Row>
    var incoming: map<int, Incoming>
    var loads: map<int, Load>

    ghost function View(): State
      reads this
    {
      State(messages, sessions, rows, incoming, loads)
    }

    constructor ()
      ensures View() == EMPTY
    {
      messages, sessions, rows, incoming, loads := map[], [], map[], map[], map[];
    }

    function Current(room: string): (list: seq<Message>)
      reads this
      ensures list == ListOf(View(), room)
    {
      if room in messages then messages[room] else []
    }

    method SendOptimistic(room: string, me: string, kind: Kind, content: string, parent: string, ms: int)
      modifies this`messages
      ensures View() == SendMessage(old(View()), room, OptimisticCopy(me, kind, content, parent, ms))
    {
      var copy := Message(Sending(ms), kind, me, content, ms as real / 1000.0, Pending, parent);
      messages := messages[room := Current(room) + [copy]];
    }

    method CloseStream(room: string, m: Message)
      modifies this`messages, this`sessions
      ensures View() == StreamClosed(old(View()), room, m)
    {
      if m.from != ROBOT || !m.kind.GroupMessage? || m.parent == "" { return; }
      var i := FirstIndex(sessions, (x: Session) => Answers(x, room, m.parent));
      if i == -1 { return; }
      var req := sessions[i].req;
      var next := Filter(Current(room), (x: Message) => x.id != Stream(req));
      messages := messages[room := next];
      sessions := Kept(sessions, (x: Session) => x.req != req);
    }

    /** handleIncomingMessage up to its first await. */
    method BeginIncoming(p: int, room: string, m: Message, me: string)
      modifies this`messages, this`sessions, this`incoming
      ensures View() == Begun(old(View()), p, room, m, me)
    {
      hide StreamClosed;
      if room == "" { return; }
      CloseStream(room, m);
      var matched := -1;
      if me != "" && m.from == me {
        matched := FindCopy(Current(room), m);
      }
      incoming := incoming[p := Incoming(room, m, matched)];
    }

    method SaveRow(room: string, m: Message, ms: int)
      modifies this`rows
      ensures View() == Upserted(old(View()), room, m, ms)
    {
      rows := rows[(if m.id.Missing? then Auto(ms) else ById(m.id)) := Row(room, m)];
    }

    /** handleIncomingMessage after its last await. */
    method FinishIncoming(p: int)
      requires p in incoming
      modifies this`messages, this`incoming
      ensures View() == Finished(old(View()), p)
    {
      var c := incoming[p];
      incoming := incoming - {p};
      var latest := Current(c.room);
      if !c.m.id.Missing? && HasId(latest, c.m.id) { return; }
      var sent := c.m.(status := Sent);
      if c.matched != -1 {
        if c.matched < 0 || c.matched >= |latest| {
          messages := messages[c.room := latest + [sent]];
        } else {
          messages := messages[c.room := latest[c.matched := sent]];
        }
        return;
      }
      messages := messages[c.room := latest + [sent]];
    }

    method HandleAck(req: string, room: string, parent: string, now: real)
      modifies this`messages, this`sessions
      ensures View() == Acknowledged(old(View()), req, room, parent, now)
    {
      if req == "" || room == "" || HasSession(sessions, req) { return; }
      var list := Current(room);
      if !HasId(list, Stream(req)) {
        list := list + [Message(Stream(req), GroupMessage, ROBOT, WORKING, now, Pending, parent)];
      }
      messages := messages[room := list];
      sessions := sessions + [Session(req, room, parent, false, "")];
    }

    method HandleStreamEvent(req: string, e: Event, now: real)
      modifies this`messages, this`sessions
      ensures View() == Streamed(old(View()), req, e, now)
    {
      var k := FirstIndex(sessions, (x: Session) => x.req == req);
      if k == -1 { return; }
      var x := sessions[k];
      var list := Current(x.room);
      var i := FirstIndex(list, (m: Message) => m.id == Stream(req));
      if i != -1 {
        messages := messages[x.room := list[i := Shown(list[i], e, now)]];
      }
      if !e.StepEvent? {
        sessions := sessions[k := x.(finalized := true, finalText := e.text)];
      }
    }

    /** loadMessages up to the answer of its query. */
    method BeginLoading(l: int, room: string, mode: Mode, keys: seq<Key>)
      requires Selection(View(), room, keys)
      modifies this`loads
      ensures View() == LoadBegun(old(View()), l, room, mode, keys)
    {
      var loaded: seq<Message> := [];
      for i := 0 to |keys|
        invariant loaded == MessagesAt(rows, keys[..i])
      {
        loaded := loaded + [rows[keys[i]].m];
      }
      assert keys[..|keys|] == keys;
      loads := loads[l := Load(room, mode, loaded)];
    }

    method FinishLoading(l: int)
      requires l in loads
      modifies this`messages, this`loads
      ensures View() == LoadFinished(old(View()), l)
    {
      hide Kept, HasId;
      var c := loads[l];
      loads := loads - {l};
      var current := Current(c.room);
      if c.mode.Prepend? {
        var added := Filter(c.loaded, (m: Message) => !HasId(current, m.id));
        messages := messages[c.room := added + current];
        return;
      }
      var open := sessions;
      var temps := Filter(current, (m: Message) => Streaming(open, c.room, c.loaded, m));
      messages := messages[c.room := c.loaded + temps];
    }
  }
}
