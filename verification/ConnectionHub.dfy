/** One server's hub of websocket clients: registration, delivery, and removal of slow clients. */
module ConnectionHub {

  /** A connection; its send channel is identified with it. */
  datatype Client = Client(id: nat, user: string)

  const SEND_CAPACITY: nat := 256

  /**
   * `buffers` holds what waits in each send channel, `closes` how often each was closed, `status` the
   * updates issued for each user (true for active), `ever` every client that was registered.
   */
  datatype State = State(clients: set<Client>, byUser: map<string, set<Client>>, buffers: map<Client, seq<string>>,
                         closes: multiset<Client>, status: map<string, seq<bool>>, ever: set<Client>)

  const EMPTY := State({}, map[], map[], multiset{}, map[], {})

  function ClientsOf(s: State, user: string): set<Client> {
    if user in s.byUser then s.byUser[user] else {}
  }

  function BufferOf(s: State, c: Client): seq<string> {
    if c in s.buffers then s.buffers[c] else []
  }

  function StatusOf(s: State, user: string): seq<bool> {
    if user in s.status then s.status[user] else []
  }

  /** A status update; updates for the empty user id are ignored. */
  function Noted(s: State, user: string, active: bool): State {
    if user == "" then s else s.(status := s.status[user := StatusOf(s, user) + [active]])
  }

  function Registered(s: State, c: Client): State {
    var all := ClientsOf(s, c.user) + {c};
    var t := s.(clients := s.clients + {c}, byUser := s.byUser[c.user := all], ever := s.ever + {c});
    if |all| == 1 then Noted(t, c.user, true) else t
  }

  function Removed(s: State, c: Client): State {
    if c !in s.clients then s
    else
      var left := ClientsOf(s, c.user) - {c};
      var t := s.(clients := s.clients - {c}, closes := s.closes + multiset{c});
      if c.user !in s.byUser then t
      else if left == {} then Noted(t.(byUser := s.byUser - {c.user}), c.user, false)
      else t.(byUser := s.byUser[c.user := left])
  }

  predicate HasRoom(s: State, c: Client) { |BufferOf(s, c)| < SEND_CAPACITY }

  /** One non-blocking send; a full channel costs the client its registration. */
  function Sent(s: State, c: Client, data: string): State {
    if HasRoom(s, c) then s.(buffers := s.buffers[c := BufferOf(s, c) + [data]]) else Removed(s, c)
  }

  /** The clients of a group whose channels are full. */
  function Full(s: State, group: set<Client>): set<Client> {
    set c | c in group && !HasRoom(s, c)
  }

  function Appended(s: State, group: set<Client>, data: string): State {
    s.(buffers := map c | c in s.buffers.Keys + group :: if c in group then BufferOf(s, c) + [data] else s.buffers[c])
  }

  /** Removing some of a user's clients. */
  function Dropped(s: State, user: string, gone: set<Client>): State {
    var left := ClientsOf(s, user) - gone;
    var t := s.(clients := s.clients - gone, closes := s.closes + multiset(gone));
    if gone == {} then s
    else if left == {} then Noted(t.(byUser := s.byUser - {user}), user, false)
    else t.(byUser := s.byUser[user := left])
  }

  /** Sending to some of a user's clients, in whatever order the map yields them. */
  function SentTo(s: State, user: string, part: set<Client>, data: string): State {
    Dropped(Appended(s, part - Full(s, part), data), user, Full(s, part))
  }

  function ToUser(s: State, user: string, data: string): State {
    SentTo(s, user, ClientsOf(s, user), data)
  }

  function Direct(s: State, from: string, to: string, data: string): State {
    ToUser(ToUser(s, to, data), from, data)
  }

  function Broadcast(s: State, users: seq<string>, data: string): State
    decreases |users|
  {
    if users == [] then s else ToUser(Broadcast(s, users[..|users| - 1], data), users[|users| - 1], data)
  }

  function Drained(s: State, c: Client): State {
    if BufferOf(s, c) == [] then s else s.(buffers := s.buffers[c := BufferOf(s, c)[1..]])
  }

  // --------------------------------------------------------------- invariant

  /** Active, offline, active, ... */
  predicate Alternating(h: seq<bool>) {
    forall k :: 0 <= k < |h| ==> h[k] == (k % 2 == 0)
  }

  predicate ClientOk(s: State, c: Client) {
    && (c in s.clients <==> c in ClientsOf(s, c.user))
    && (c in s.clients ==> c in s.ever)
    && s.closes[c] == (if c in s.ever && c !in s.clients then 1 else 0)
    && |BufferOf(s, c)| <= SEND_CAPACITY
  }

  predicate UserOk(s: State, u: string) {
    && (u in s.byUser ==> s.byUser[u] != {})
    && (forall c :: c in ClientsOf(s, u) ==> c.user == u)
    && (u != "" ==> Alternating(StatusOf(s, u)) && (|StatusOf(s, u)| % 2 == 1 <==> u in s.byUser))
  }

  ghost predicate Inv(s: State) {
    (forall c :: ClientOk(s, c)) && (forall u :: UserOk(s, u))
  }

  lemma EmptyInv()
    ensures Inv(EMPTY)
  {
  }

  lemma RegisteredInv(s: State, c: Client)
    requires Inv(s) && c !in s.ever
    ensures Inv(Registered(s, c))
  {
    hide Alternating, ClientOk, UserOk;
    var t := Registered(s, c);
    forall d ensures ClientOk(t, d) { assert ClientOk(s, d) && ClientOk(s, c); RegisteredClient(s, c, d); }
    forall u ensures UserOk(t, u) { assert UserOk(s, u) && ClientOk(s, c); RegisteredUser(s, c, u); }
  }

  lemma RegisteredClient(s: State, c: Client, d: Client)
    requires ClientOk(s, d) && ClientOk(s, c) && c !in s.ever
    ensures ClientOk(Registered(s, c), d)
  {
  }

  lemma FirstOfUser(before: set<Client>, c: Client)
    requires c !in before
    ensures |before + {c}| == 1 <==> before == {}
  {
  }

  /** What registering changes for the client's user, and what it leaves for others. */
  lemma RegisteredEffect(s: State, c: Client, u: string)
    requires c !in ClientsOf(s, c.user)
    ensures var t := Registered(s, c);
            && ClientsOf(t, u) == (if u == c.user then ClientsOf(s, u) + {c} else ClientsOf(s, u))
            && (u in t.byUser <==> u == c.user || u in s.byUser)
            && StatusOf(t, u) == if u == c.user && u != "" && ClientsOf(s, u) == {} then StatusOf(s, u) + [true] else StatusOf(s, u)
  {
    FirstOfUser(ClientsOf(s, c.user), c);
  }

  lemma RegisteredUser(s: State, c: Client, u: string)
    requires UserOk(s, u) && ClientOk(s, c) && c !in s.ever
    ensures UserOk(Registered(s, c), u)
  {
    hide Alternating, Registered;
    RegisteredEffect(s, c, u);
    NotedAlternatesIf(StatusOf(s, u));
  }

  lemma NotedAlternatesIf(h: seq<bool>)
    ensures Alternating(h) ==> Alternating(h + [|h| % 2 == 0])
  {
  }

  /**
   * Registering keeps the invariant exactly for a client never seen before, and for a repeated
   * registration that finds the user with another client as well.
   */
  lemma RegisterOnce(s: State, c: Client)
    requires Inv(s) && c.user != ""
    ensures Inv(Registered(s, c)) <==> c !in s.ever || (c in s.clients && |ClientsOf(s, c.user)| > 1)
  {
    hide Alternating;
    var t := Registered(s, c);
    assert ClientOk(s, c) && UserOk(s, c.user);
    if c !in s.ever {
      RegisteredInv(s, c);
    } else if c !in s.clients {
      assert !ClientOk(t, c);
    } else {
      assert ClientsOf(s, c.user) + {c} == ClientsOf(s, c.user);
      if |ClientsOf(s, c.user)| > 1 {
        assert t == s;
      } else {
        assert |StatusOf(t, c.user)| == |StatusOf(s, c.user)| + 1;
        assert !UserOk(t, c.user);
      }
    }
  }

  lemma AppendedInv(s: State, group: set<Client>, data: string)
    requires Inv(s) && forall c :: c in group ==> HasRoom(s, c)
    ensures Inv(Appended(s, group, data))
  {
    hide Alternating;
    var t := Appended(s, group, data);
    forall d ensures ClientOk(t, d) { assert ClientOk(s, d); }
    forall u ensures UserOk(t, u) { assert UserOk(s, u); }
  }

  lemma DroppedInv(s: State, user: string, gone: set<Client>)
    requires Inv(s) && gone <= ClientsOf(s, user)
    ensures Inv(Dropped(s, user, gone))
  {
    hide Alternating, ClientOk, UserOk;
    var t := Dropped(s, user, gone);
    forall d ensures ClientOk(t, d) { assert ClientOk(s, d) && UserOk(s, user); DroppedClient(s, user, gone, d); }
    forall u ensures UserOk(t, u) { assert UserOk(s, u) && UserOk(s, user); DroppedUser(s, user, gone, u); }
  }

  lemma DroppedClient(s: State, user: string, gone: set<Client>, d: Client)
    requires ClientOk(s, d) && UserOk(s, user) && gone <= ClientsOf(s, user)
    ensures ClientOk(Dropped(s, user, gone), d)
  {
  }

  lemma DroppedUser(s: State, user: string, gone: set<Client>, u: string)
    requires UserOk(s, u) && UserOk(s, user) && gone <= ClientsOf(s, user)
    ensures UserOk(Dropped(s, user, gone), u)
  {
    hide Alternating;
    NotedAlternatesIf(StatusOf(s, user));
  }

  /** Removing one registered client is dropping a group of one. */
  lemma RemovedIsDropped(s: State, c: Client)
    requires Inv(s) && c in s.clients
    ensures Removed(s, c) == Dropped(s, c.user, {c}) && {c} <= ClientsOf(s, c.user)
  {
    hide Alternating;
    assert ClientOk(s, c);
    assert multiset({c}) == multiset{c};
  }

  lemma RemovedInv(s: State, c: Client)
    requires Inv(s)
    ensures Inv(Removed(s, c))
  {
    hide Inv, Dropped;
    if c in s.clients {
      RemovedIsDropped(s, c);
      DroppedInv(s, c.user, {c});
    }
  }

  lemma SentToInv(s: State, user: string, part: set<Client>, data: string)
    requires Inv(s) && part <= ClientsOf(s, user)
    ensures Inv(SentTo(s, user, part, data))
  {
    hide Inv;
    AppendedInv(s, part - Full(s, part), data);
    DroppedInv(Appended(s, part - Full(s, part), data), user, Full(s, part));
  }

  lemma DropOneMore(s: State, user: string, gone: set<Client>, c: Client)
    requires Inv(s) && gone <= ClientsOf(s, user) && c in ClientsOf(s, user) && c !in gone
    ensures Removed(Dropped(s, user, gone), c) == Dropped(s, user, gone + {c})
  {
    assert UserOk(s, user) && ClientOk(s, c);
    if gone == {} {
      RemovedIsDropped(s, c);
      assert gone + {c} == {c};
    } else {
      DropTwice(s, user, gone, c);
    }
  }

  lemma DropTwice(s: State, user: string, gone: set<Client>, c: Client)
    requires gone != {} && c.user == user && c in ClientsOf(s, user) && c !in gone && c in s.clients
    ensures Removed(Dropped(s, user, gone), c) == Dropped(s, user, gone + {c})
  {
    var t, left := Dropped(s, user, gone), ClientsOf(s, user) - gone;
    assert c in left;
    assert t.byUser == s.byUser[user := left] && t.clients == s.clients - gone && t.closes == s.closes + multiset(gone);
    assert multiset(gone + {c}) == multiset(gone) + multiset{c};
    assert left - {c} == ClientsOf(s, user) - (gone + {c});
    assert s.clients - gone - {c} == s.clients - (gone + {c});
    assert t.byUser - {user} == s.byUser - {user};
    assert t.byUser[user := left - {c}] == s.byUser[user := left - {c}];
  }

  lemma DropCommutes(s: State, b: map<Client, seq<string>>, user: string, gone: set<Client>)
    ensures Dropped(s.(buffers := b), user, gone) == Dropped(s, user, gone).(buffers := b)
  {
  }

  lemma AppendOneMore(s: State, user: string, group: set<Client>, gone: set<Client>, c: Client, data: string)
    requires c !in group && HasRoom(s, c)
    ensures Sent(Dropped(Appended(s, group, data), user, gone), c, data) == Dropped(Appended(s, group + {c}, data), user, gone)
  {
    hide Dropped;
    var a, b := Appended(s, group, data), Appended(s, group + {c}, data);
    DroppedKeepsBuffers(a, user, gone);
    assert BufferOf(a, c) == BufferOf(s, c);
    assert a.buffers[c := BufferOf(s, c) + [data]] == b.buffers;
    DropCommutes(a, b.buffers, user, gone);
    assert a.(buffers := b.buffers) == b;
  }

  /** Sending to one more client of the user extends the group that was sent to. */
  lemma OneMore(s: State, user: string, part: set<Client>, c: Client, data: string)
    requires Inv(s) && part <= ClientsOf(s, user) && c in ClientsOf(s, user) && c !in part
    ensures Sent(SentTo(s, user, part, data), c, data) == SentTo(s, user, part + {c}, data)
  {
    hide Inv, Dropped;
    var group, full := part - Full(s, part), Full(s, part);
    if HasRoom(s, c) {
      assert Full(s, part + {c}) == full;
      assert part + {c} - full == group + {c};
      AppendOneMore(s, user, group, full, c, data);
    } else {
      assert Full(s, part + {c}) == full + {c};
      assert part + {c} - (full + {c}) == group;
      var a := Appended(s, group, data);
      AppendedInv(s, group, data);
      DropOneMore(a, user, full, c);
      DroppedKeepsBuffers(a, user, full);
    }
  }

  lemma DroppedKeepsBuffers(s: State, user: string, gone: set<Client>)
    ensures Dropped(s, user, gone).buffers == s.buffers
  {
  }

  lemma {:induction false} BroadcastInv(s: State, users: seq<string>, data: string)
    requires Inv(s)
    ensures Inv(Broadcast(s, users, data))
    decreases |users|
  {
    hide Inv, SentTo;
    if users != [] {
      BroadcastInv(s, users[..|users| - 1], data);
      var t := Broadcast(s, users[..|users| - 1], data);
      SentToInv(t, users[|users| - 1], ClientsOf(t, users[|users| - 1]), data);
    }
  }

  // ---------------------------------------------------------------- all runs

  datatype Action =
    | Register(c: Client)
    | Unregister(c: Client)
    | SendDirect(from: string, to: string, data: string)
    | SendBroadcast(users: seq<string>, data: string)
    | Drain(c: Client)

  /** One event of the hub's loop, or of a client's writer; a client is registered only once. */
  function Step(s: State, a: Action): State {
    match a
    case Register(c) => if c in s.ever then s else Registered(s, c)
    case Unregister(c) => Removed(s, c)
    case SendDirect(from, to, data) => Direct(s, from, to, data)
    case SendBroadcast(users, data) => Broadcast(s, users, data)
    case Drain(c) => Drained(s, c)
  }

  function Run(s: State, actions: seq<Action>): State
    decreases |actions|
  {
    if actions == [] then s else Run(Step(s, actions[0]), actions[1..])
  }

  lemma DrainedInv(s: State, c: Client)
    requires Inv(s)
    ensures Inv(Drained(s, c))
  {
    hide Alternating;
    var t := Drained(s, c);
    forall d ensures ClientOk(t, d) { assert ClientOk(s, d); }
    forall u ensures UserOk(t, u) { assert UserOk(s, u); }
  }

  lemma DirectInv(s: State, from: string, to: string, data: string)
    requires Inv(s)
    ensures Inv(Direct(s, from, to, data))
  {
    hide Inv, SentTo;
    SentToInv(s, to, ClientsOf(s, to), data);
    var t := ToUser(s, to, data);
    SentToInv(t, from, ClientsOf(t, from), data);
  }

  lemma StepInv(s: State, a: Action)
    requires Inv(s)
    ensures Inv(Step(s, a))
  {
    hide Inv, Registered, Removed, Direct, Broadcast, Drained;
    match a
    case Register(c) => if c !in s.ever { RegisteredInv(s, c); }
    case Unregister(c) => RemovedInv(s, c);
    case SendDirect(from, to, data) => DirectInv(s, from, to, data);
    case SendBroadcast(users, data) => BroadcastInv(s, users, data);
    case Drain(c) => DrainedInv(s, c);
  }

  lemma {:induction false} RunInv(s: State, actions: seq<Action>)
    requires Inv(s)
    ensures Inv(Run(s, actions))
    decreases |actions|
  {
    hide Inv, Step;
    if actions != [] {
      StepInv(s, actions[0]);
      RunInv(Step(s, actions[0]), actions[1..]);
    }
  }

  /** In every reachable state the two indexes agree and no user is listed without a client. */
  lemma {:induction false} IndexesAgree(actions: seq<Action>, c: Client, user: string)
    ensures var s := Run(EMPTY, actions);
            && (c in s.clients <==> c.user in s.byUser && c in s.byUser[c.user])
            && (user in s.byUser ==> s.byUser[user] != {})
            && (c in ClientsOf(s, user) ==> c.user == user)
  {
    hide Run;
    EmptyInv();
    RunInv(EMPTY, actions);
    assert ClientOk(Run(EMPTY, actions), c) && UserOk(Run(EMPTY, actions), user);
  }

  /** A channel is closed at most once, and a client the hub would send to has an open channel. */
  lemma ClosedOnceNeverSentTo(actions: seq<Action>, c: Client, user: string)
    ensures var s := Run(EMPTY, actions);
            && s.closes[c] <= 1
            && (c in ClientsOf(s, user) ==> s.closes[c] == 0)
            && (s.closes[c] == 1 ==> c !in s.clients)
  {
    hide Run;
    EmptyInv();
    RunInv(EMPTY, actions);
    assert ClientOk(Run(EMPTY, actions), c) && UserOk(Run(EMPTY, actions), user);
  }

  /** A user's updates alternate from active, and the last one is active exactly while a client remains. */
  lemma StatusTellsPresence(actions: seq<Action>, user: string)
    requires user != ""
    ensures var s := Run(EMPTY, actions);
            var h := StatusOf(s, user);
            && (forall k :: 0 <= k < |h| ==> h[k] == (k % 2 == 0))
            && ((exists c :: c in s.clients && c.user == user) <==> h != [] && h[|h| - 1])
  {
    hide Run;
    EmptyInv();
    RunInv(EMPTY, actions);
    var s := Run(EMPTY, actions);
    assert UserOk(s, user);
    var h := StatusOf(s, user);
    assert forall c :: ClientOk(s, c);
    if user in s.byUser {
      var c :| c in s.byUser[user];
      assert ClientOk(s, c) && c in s.clients && c.user == user;
    } else {
      forall c | c in s.clients ensures c.user != user { assert ClientOk(s, c); }
    }
  }

  /** A client registered again after its removal would have its channel closed twice. */
  lemma SecondRegistrationClosesTwice(user: string)
    ensures var c := Client(0, user);
            Removed(Registered(Removed(Registered(EMPTY, c), c), c), c).closes[c] == 2
  {
    var c := Client(0, user);
    var s1 := Registered(EMPTY, c);
    assert ClientsOf(s1, user) == {c} && c in s1.clients;
    var s2 := Removed(s1, c);
    assert s2.closes[c] == 1 && user !in s2.byUser;
    var s3 := Registered(s2, c);
    assert ClientsOf(s3, user) == {c} && c in s3.clients && s3.closes[c] == 1;
  }

  // ------------------------------------------------- what one client receives

  /** A client as the hub sees it: whether it is registered, and what waits in its channel. */
  datatype Line = Line(open: bool, waiting: seq<string>)

  function LineOf(s: State, c: Client): Line { Line(c in s.clients, BufferOf(s, c)) }

  /** One send to a line: nothing when it is closed, and the end of it when it is full. */
  function Took(l: Line, data: string): Line {
    if !l.open then l
    else if |l.waiting| < SEND_CAPACITY then Line(true, l.waiting + [data])
    else Line(false, l.waiting)
  }

  function TookAll(l: Line, data: seq<string>): Line
    decreases |data|
  {
    if data == [] then l else Took(TookAll(l, data[..|data| - 1]), data[|data| - 1])
  }

  /** How a direct message reaches a user: once as its recipient and once as its sender. */
  function DirectCopies(user: string, from: string, to: string, data: string): seq<string> {
    (if to == user then [data] else []) + if from == user then [data] else []
  }

  /** How a broadcast reaches a user: once for each time the user is listed. */
  function BroadcastCopies(user: string, users: seq<string>, data: string): seq<string>
    decreases |users|
  {
    if users == [] then []
    else BroadcastCopies(user, users[..|users| - 1], data) + if users[|users| - 1] == user then [data] else []
  }

  /** Sending to a user is one send to each of the user's clients, and touches no other client. */
  lemma ToUserReaches(s: State, user: string, data: string, c: Client)
    requires Inv(s)
    ensures LineOf(ToUser(s, user, data), c) == if c.user == user then Took(LineOf(s, c), data) else LineOf(s, c)
  {
    hide Alternating;
    assert ClientOk(s, c) && UserOk(s, user);
    var all := ClientsOf(s, user);
    var a := Appended(s, all - Full(s, all), data);
    DroppedKeepsBuffers(a, user, Full(s, all));
  }

  lemma ToUserInv(s: State, user: string, data: string)
    requires Inv(s)
    ensures Inv(ToUser(s, user, data))
  {
    hide Inv, SentTo;
    SentToInv(s, user, ClientsOf(s, user), data);
  }

  lemma TookOneMore(l: Line, data: seq<string>, x: string)
    ensures TookAll(l, data + [x]) == Took(TookAll(l, data), x) && TookAll(l, []) == l
  {
    assert (data + [x])[..|data|] == data;
  }

  /** A direct message reaches the recipient's clients, then the sender's, and no other: twice for one who writes to himself. */
  lemma DirectReaches(s: State, from: string, to: string, data: string, c: Client)
    requires Inv(s)
    ensures LineOf(Direct(s, from, to, data), c) == TookAll(LineOf(s, c), DirectCopies(c.user, from, to, data))
  {
    hide Inv, ToUser, Took, LineOf;
    ToUserReaches(s, to, data, c);
    ToUserInv(s, to, data);
    ToUserReaches(ToUser(s, to, data), from, data, c);
    var l := LineOf(s, c);
    TookOneMore(l, [], data);
    TookOneMore(l, [data], data);
    assert [] + [data] == [data] && [data] + [] == [data];
  }

  /** A broadcast reaches each listed user's clients once for each time the user is listed, and no other client. */
  lemma {:induction false} BroadcastReaches(s: State, users: seq<string>, data: string, c: Client)
    requires Inv(s)
    ensures LineOf(Broadcast(s, users, data), c) == TookAll(LineOf(s, c), BroadcastCopies(c.user, users, data))
    decreases |users|
  {
    hide Inv, ToUser, Took, LineOf;
    if users != [] {
      var front, last := users[..|users| - 1], users[|users| - 1];
      BroadcastReaches(s, front, data, c);
      BroadcastInv(s, front, data);
      ToUserReaches(Broadcast(s, front, data), last, data, c);
      var copies := BroadcastCopies(c.user, front, data);
      TookOneMore(LineOf(s, c), copies, data);
      assert copies + [] == copies;
    }
  }

  /** The copies of a message that an event sends to each client of a user. */
  function CopiesFor(a: Action, user: string): seq<string> {
    match a
    case SendDirect(from, to, data) => DirectCopies(user, from, to, data)
    case SendBroadcast(users, data) => BroadcastCopies(user, users, data)
    case _ => []
  }

  /** What an event puts into a client's channel: its copies, as long as there is room. */
  function Accepted(s: State, a: Action, c: Client): seq<string> {
    var l := TookAll(LineOf(s, c), CopiesFor(a, c.user));
    if |BufferOf(s, c)| <= |l.waiting| then l.waiting[|BufferOf(s, c)|..] else []
  }

  lemma RegisterLine(s: State, d: Client, c: Client)
    ensures LineOf(Step(s, Register(d)), c) == if d == c && c !in s.ever then LineOf(s, c).(open := true) else LineOf(s, c)
  {
  }

  lemma UnregisterLine(s: State, d: Client, c: Client)
    ensures LineOf(Removed(s, d), c) == if d == c then LineOf(s, c).(open := false) else LineOf(s, c)
  {
  }

  lemma DrainLine(s: State, d: Client, c: Client)
    ensures LineOf(Drained(s, d), c)
         == if d == c && LineOf(s, c).waiting != [] then LineOf(s, c).(waiting := LineOf(s, c).waiting[1..]) else LineOf(s, c)
  {
  }

  /** What each event does to a client: when it is registered and what waits for it. */
  lemma LineFollows(s: State, a: Action, c: Client)
    requires Inv(s)
    ensures var l, k := LineOf(s, c), LineOf(Step(s, a), c);
            match a
            case Register(d) => k == if d == c && c !in s.ever then l.(open := true) else l
            case Unregister(d) => k == if d == c then l.(open := false) else l
            case Drain(d) => k == if d == c && l.waiting != [] then l.(waiting := l.waiting[1..]) else l
            case _ => k == TookAll(l, CopiesFor(a, c.user))
  {
    hide Inv, TookAll, Registered, Removed, Drained, Broadcast, Direct, LineOf, DirectCopies, BroadcastCopies;
    match a
    case Register(d) => RegisterLine(s, d, c);
    case Unregister(d) => UnregisterLine(s, d, c);
    case Drain(d) => DrainLine(s, d, c);
    case SendDirect(from, to, data) => DirectReaches(s, from, to, data, c);
    case SendBroadcast(users, data) => BroadcastReaches(s, users, data, c);
  }

  /** What a client's writer takes out in an event. */
  function ReadIn(s: State, a: Action, c: Client): seq<string> {
    if a == Drain(c) && BufferOf(s, c) != [] then [BufferOf(s, c)[0]] else []
  }

  function AcceptedOver(s: State, actions: seq<Action>, c: Client): seq<string>
    decreases |actions|
  {
    if actions == [] then [] else Accepted(s, actions[0], c) + AcceptedOver(Step(s, actions[0]), actions[1..], c)
  }

  function ReadOver(s: State, actions: seq<Action>, c: Client): seq<string>
    decreases |actions|
  {
    if actions == [] then [] else ReadIn(s, actions[0], c) + ReadOver(Step(s, actions[0]), actions[1..], c)
  }

  lemma {:induction false} TookExtends(l: Line, data: seq<string>)
    ensures l.waiting <= TookAll(l, data).waiting
    decreases |data|
  {
    if data != [] { TookExtends(l, data[..|data| - 1]); }
  }

  lemma StepInLine(s: State, a: Action, c: Client)
    requires Inv(s)
    ensures Inv(Step(s, a))
    ensures ReadIn(s, a, c) + BufferOf(Step(s, a), c) == BufferOf(s, c) + Accepted(s, a, c)
  {
    hide Inv, TookAll, Step, CopiesFor;
    TookExtends(LineOf(s, c), CopiesFor(a, c.user));
    NothingTaken(LineOf(s, c));
    LineFollows(s, a, c);
    StepInv(s, a);
    if !a.SendDirect? && !a.SendBroadcast? { NoCopies(a, c.user); }
  }

  lemma NoCopies(a: Action, user: string)
    requires !a.SendDirect? && !a.SendBroadcast?
    ensures CopiesFor(a, user) == []
  {
  }

  lemma NothingTaken(l: Line)
    ensures TookAll(l, []) == l
  {
  }

  /** On every run a client's writer reads, in order, what was put into its channel; the rest still waits there. */
  lemma {:induction false} ReadsInOrder(s: State, actions: seq<Action>, c: Client)
    requires Inv(s)
    ensures ReadOver(s, actions, c) + BufferOf(Run(s, actions), c) == BufferOf(s, c) + AcceptedOver(s, actions, c)
    decreases |actions|
  {
    hide Inv, Step, ReadIn, Accepted, BufferOf;
    if actions != [] {
      var t := Step(s, actions[0]);
      StepInLine(s, actions[0], c);
      ReadsInOrder(t, actions[1..], c);
      var r1, r2, b := ReadIn(s, actions[0], c), ReadOver(t, actions[1..], c), BufferOf(Run(t, actions[1..]), c);
      var a1, a2 := Accepted(s, actions[0], c), AcceptedOver(t, actions[1..], c);
      assert r1 + r2 + b == r1 + (r2 + b);
      assert r1 + (BufferOf(t, c) + a2) == (r1 + BufferOf(t, c)) + a2;
      assert BufferOf(s, c) + a1 + a2 == BufferOf(s, c) + (a1 + a2);
    }
  }

  /** With enough room in its channel a registered client gets every copy, in order, and stays registered. */
  lemma {:induction false} RoomForAll(l: Line, data: seq<string>)
    requires l.open && |l.waiting| + |data| <= SEND_CAPACITY
    ensures TookAll(l, data) == Line(true, l.waiting + data)
    decreases |data|
  {
    if data != [] {
      RoomForAll(l, data[..|data| - 1]);
    }
  }

  // --------------------------------------------------------------- the class

  class Hub {
    var clients: set<Client>
    var clientsByUser: map<string, set<Client>>
    var buffers: map<Client, seq<string>>
    ghost var closes: multiset<Client>
    ghost var status: map<string, seq<bool>>
    ghost var ever: set<Client>

    ghost function View(): State
      reads this
    {
      State(clients, clientsByUser, buffers, closes, status, ever)
    }

    constructor ()
      ensures View() == EMPTY && Inv(View())
    {
      clients, clientsByUser, buffers := {}, map[], map[];
      closes, status, ever := multiset{}, map[], {};
    }

    method UpdateUserStatus(user: string, active: bool)
      modifies this`status
      ensures View() == Noted(old(View()), user, active)
    {
      if user == "" { return; }
      status := status[user := StatusOf(View(), user) + [active]];
    }

    method HandleRegister(c: Client)
      requires Inv(View()) && c !in ever
      modifies this
      ensures View() == Registered(old(View()), c) && Inv(View())
    {
      hide Inv, Noted;
      RegisteredInv(View(), c);
      clients := clients + {c};
      ever := ever + {c};
      var all := if c.user in clientsByUser then clientsByUser[c.user] else {};
      all := all + {c};
      clientsByUser := clientsByUser[c.user := all];
      if |all| == 1 {
        UpdateUserStatus(c.user, true);
      }
    }

    method RemoveClient(c: Client)
      requires Inv(View())
      modifies this
      ensures View() == Removed(old(View()), c) && Inv(View())
    {
      hide Inv, Noted;
      RemovedInv(View(), c);
      ghost var before := View();
      if c !in clients { return; }
      clients := clients - {c};
      Close(c);
      if c.user in clientsByUser {
        var left := clientsByUser[c.user] - {c};
        if left == {} {
          clientsByUser := clientsByUser - {c.user};
          UpdateUserStatus(c.user, false);
        } else {
          clientsByUser := clientsByUser[c.user := left];
        }
      }
    }

    ghost method Close(c: Client)
      modifies this`closes
      ensures closes == old(closes) + multiset{c}
    {
      closes := closes + multiset{c};
    }

    /** The select with a default branch; the channel it sends on is open. */
    method Send(c: Client, data: string)
      requires Inv(View()) && c in clients && closes[c] == 0
      modifies this
      ensures View() == Sent(old(View()), c, data) && Inv(View())
    {
      hide Inv;
      SentInv(View(), c, data);
      var waiting := if c in buffers then buffers[c] else [];
      if |waiting| < SEND_CAPACITY {
        buffers := buffers[c := waiting + [data]];
      } else {
        RemoveClient(c);
      }
    }

    /** The range loop over one user's set, which removals shrink while it runs. */
    method SendToUser(user: string, data: string)
      requires Inv(View())
      modifies this
      ensures View() == ToUser(old(View()), user, data) && Inv(View())
    {
      hide Inv, SentTo, Sent, ClientOk, UserOk;
      ghost var s := View();
      if user !in clientsByUser {
        NobodyThere(s, user, data);
        return;
      }
      var all := clientsByUser[user];
      var todo := all;
      NothingSentYet(s, user, data);
      assert all - todo == {};
      while todo != {}
        invariant todo <= all == ClientsOf(s, user)
        invariant Inv(View()) && View() == SentTo(s, user, all - todo, data)
      {
        var c :| c in todo;
        OneMore(s, user, all - todo, c, data);
        StillOpen(s, user, all - todo, c, data);
        Send(c, data);
        assert all - todo + {c} == all - (todo - {c});
        todo := todo - {c};
      }
      assert all - todo == all;
    }

    method HandleDirect(from: string, to: string, data: string)
      requires Inv(View())
      modifies this
      ensures View() == Direct(old(View()), from, to, data) && Inv(View())
    {
      SendToUser(to, data);
      SendToUser(from, data);
    }

    method HandleBroadcast(users: seq<string>, data: string)
      requires Inv(View())
      modifies this
      ensures View() == Broadcast(old(View()), users, data) && Inv(View())
    {
      hide Inv, ToUser;
      ghost var s := View();
      for i := 0 to |users|
        invariant Inv(View()) && View() == Broadcast(s, users[..i], data)
      {
        assert users[..i + 1][..i] == users[..i];
        SendToUser(users[i], data);
      }
      assert users[..|users|] == users;
    }
  }

  lemma SentInv(s: State, c: Client, data: string)
    requires Inv(s) && c in s.clients
    ensures Inv(Sent(s, c, data))
  {
    hide Alternating;
    RemovedInv(s, c);
    if HasRoom(s, c) {
      var t := Sent(s, c, data);
      forall d ensures ClientOk(t, d) { assert ClientOk(s, d); }
      forall u ensures UserOk(t, u) { assert UserOk(s, u); }
    }
  }

  lemma NobodyThere(s: State, user: string, data: string)
    requires user !in s.byUser
    ensures ToUser(s, user, data) == s
  {
  }

  lemma NothingSentYet(s: State, user: string, data: string)
    ensures SentTo(s, user, {}, data) == s
  {
  }

  /** A client not reached yet is still registered, with an open channel. */
  lemma StillOpen(s: State, user: string, part: set<Client>, c: Client, data: string)
    requires Inv(s) && part <= ClientsOf(s, user) && c in ClientsOf(s, user) && c !in part
    ensures var t := SentTo(s, user, part, data);
            c in t.clients && t.closes[c] == 0
  {
    hide Alternating;
    assert ClientOk(s, c) && UserOk(s, user);
  }
}
