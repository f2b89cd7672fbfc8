/** Routing between server nodes: per-node connection counts against shared sets, and one-hop forwarding. */
module HubRouter {
  import opened Basics

  // ------------------------------------------------------------------ states

  /** One node's local maps. */
  datatype Node = Node(connCount: map<string, int>, roomCount: map<string, int>, userRooms: map<string, set<string>>)

  /** The shared sets: nodes by user, nodes by room, connections by user, node by connection. */
  datatype Shared = Shared(userNodes: map<string, set<string>>, roomNodes: map<string, set<string>>,
                           userConns: map<string, set<string>>, connHub: map<string, string>)

  datatype Connection = Connection(id: string, user: string, node: string)

  datatype Cluster = Cluster(nodes: map<string, Node>, shared: Shared, open: set<Connection>)

  function Count(m: map<string, int>, k: string): int {
    if k in m then m[k] else 0
  }

  function Members(m: map<string, set<string>>, k: string): set<string> {
    if k in m then m[k] else {}
  }

  function Added(m: map<string, set<string>>, k: string, x: string): map<string, set<string>> {
    m[k := Members(m, k) + {x}]
  }

  function Withdrawn(m: map<string, set<string>>, k: string, x: string): map<string, set<string>> {
    m[k := Members(m, k) - {x}]
  }

  /** Adding x under every key of a list. */
  function AddedAll(m: map<string, set<string>>, keys: seq<string>, x: string): map<string, set<string>>
    decreases |keys|
  {
    if keys == [] then m else Added(AddedAll(m, keys[..|keys| - 1], x), keys[|keys| - 1], x)
  }

  function WithdrawnAll(m: map<string, set<string>>, keys: set<string>, x: string): map<string, set<string>> {
    map k | k in m.Keys + keys :: if k in keys then Members(m, k) - {x} else m[k]
  }

  /** Counting every entry of a room list, repeats included. */
  function Bumped(m: map<string, int>, rooms: seq<string>): map<string, int>
    decreases |rooms|
  {
    if rooms == [] then m
    else var b := Bumped(m, rooms[..|rooms| - 1]); b[rooms[|rooms| - 1] := Count(b, rooms[|rooms| - 1]) + 1]
  }

  function RoomSet(rooms: seq<string>): set<string> { set r | r in rooms }

  /** A user's rooms with a list added to them. */
  function Listing(m: map<string, set<string>>, user: string, rooms: seq<string>): map<string, set<string>> {
    m[user := Members(m, user) + RoomSet(rooms)]
  }

  function Connected(n: Node, user: string, rooms: seq<string>): Node {
    Node(n.connCount[user := Count(n.connCount, user) + 1],
         Bumped(n.roomCount, rooms),
         Listing(n.userRooms, user, rooms))
  }

  predicate UserGone(n: Node, user: string) { Count(n.connCount, user) - 1 <= 0 }

  /** The rooms whose count a departing user brings to zero. */
  function GoneRooms(n: Node, user: string): set<string> {
    if UserGone(n, user) then set r | r in Members(n.userRooms, user) && Count(n.roomCount, r) - 1 <= 0 else {}
  }

  function LowerCounts(m: map<string, int>, rooms: set<string>): map<string, int> {
    map r | r in m && !(r in rooms && m[r] - 1 <= 0) :: if r in rooms then m[r] - 1 else m[r]
  }

  function Disconnected(n: Node, user: string): Node {
    if UserGone(n, user) then
      Node(n.connCount - {user}, LowerCounts(n.roomCount, Members(n.userRooms, user)), n.userRooms - {user})
    else n.(connCount := n.connCount[user := Count(n.connCount, user) - 1])
  }

  function SharedAfterConnect(sh: Shared, node: string, user: string, conn: string, rooms: seq<string>): Shared {
    Shared(Added(sh.userNodes, user, node), AddedAll(sh.roomNodes, rooms, node),
           Added(sh.userConns, user, conn), sh.connHub[conn := node])
  }

  function SharedAfterDisconnect(sh: Shared, node: string, n: Node, user: string, conn: string): Shared {
    Shared(if UserGone(n, user) then Withdrawn(sh.userNodes, user, node) else sh.userNodes,
           WithdrawnAll(sh.roomNodes, GoneRooms(n, user), node),
           Withdrawn(sh.userConns, user, conn), sh.connHub - {conn})
  }

  function NodeAt(c: Cluster, node: string): Node {
    if node in c.nodes then c.nodes[node] else Node(map[], map[], map[])
  }

  datatype Action =
    | Connect(conn: Connection, rooms: seq<string>)
    | Disconnect(conn: Connection)

  /** A connection gets a fresh id, and disconnects once. */
  function Step(c: Cluster, a: Action): Cluster {
    match a
    case Connect(k, rooms) =>
      if exists o :: o in c.open && o.id == k.id then c
      else Cluster(c.nodes[k.node := Connected(NodeAt(c, k.node), k.user, rooms)],
                   SharedAfterConnect(c.shared, k.node, k.user, k.id, rooms), c.open + {k})
    case Disconnect(k) =>
      if k !in c.open then c
      else Cluster(c.nodes[k.node := Disconnected(NodeAt(c, k.node), k.user)],
                   SharedAfterDisconnect(c.shared, k.node, NodeAt(c, k.node), k.user, k.id), c.open - {k})
  }

  const EMPTY := Cluster(map[], Shared(map[], map[], map[], map[]), {})

  function Run(c: Cluster, actions: seq<Action>): Cluster
    decreases |actions|
  {
    if actions == [] then c else Run(Step(c, actions[0]), actions[1..])
  }

  // --------------------------------------------------------------- invariant

  /** The open connections of a user at a node. */
  function Held(c: Cluster, user: string, node: string): set<Connection> {
    set k | k in c.open && k.user == user && k.node == node
  }

  /** The local users that list a room. */
  function Listers(n: Node, room: string): set<string> {
    set u | u in n.userRooms && room in n.userRooms[u]
  }

  /** How far a room's count exceeds the number of users that list the room. */
  function Excess(n: Node, room: string): int {
    Count(n.roomCount, room) - |Listers(n, room)|
  }

  predicate UserOk(c: Cluster, user: string, node: string) {
    && Count(NodeAt(c, node).connCount, user) == |Held(c, user, node)|
    && (user in NodeAt(c, node).connCount <==> Held(c, user, node) != {})
    && (user in NodeAt(c, node).userRooms <==> Held(c, user, node) != {})
    && (node in Members(c.shared.userNodes, user) <==> Held(c, user, node) != {})
  }

  predicate RoomOk(c: Cluster, room: string, node: string) {
    && Excess(NodeAt(c, node), room) >= 0
    && (room in NodeAt(c, node).roomCount <==> Count(NodeAt(c, node).roomCount, room) > 0)
    && (node in Members(c.shared.roomNodes, room) <==> Count(NodeAt(c, node).roomCount, room) > 0)
  }

  predicate ConnOk(c: Cluster, k: Connection) {
    k in c.open ==> k.id in Members(c.shared.userConns, k.user) && k.id in c.shared.connHub && c.shared.connHub[k.id] == k.node
  }

  ghost predicate Inv(c: Cluster) {
    && (forall u, n :: UserOk(c, u, n))
    && (forall r, n :: RoomOk(c, r, n))
    && (forall k :: ConnOk(c, k))
    && (forall j, k :: j in c.open && k in c.open && j.id == k.id ==> j == k)
    && (forall u, id :: id in Members(c.shared.userConns, u) ==> exists k :: k in c.open && k.user == u && k.id == id)
    && (forall id :: id in c.shared.connHub ==> exists k :: k in c.open && k.id == id)
  }

  lemma EmptyInv()
    ensures Inv(EMPTY)
  {
  }

  lemma {:induction false} BumpedCount(m: map<string, int>, rooms: seq<string>, r: string)
    ensures Count(Bumped(m, rooms), r) == Count(m, r) + multiset(rooms)[r]
    ensures r in Bumped(m, rooms) <==> r in m || r in rooms
    decreases |rooms|
  {
    if rooms != [] {
      var front := rooms[..|rooms| - 1];
      assert rooms == front + [rooms[|rooms| - 1]];
      BumpedCount(m, front, r);
    }
  }

  lemma {:induction false} AddedAllMembers(m: map<string, set<string>>, keys: seq<string>, x: string, k: string)
    ensures Members(AddedAll(m, keys, x), k) == Members(m, k) + if k in keys then {x} else {}
    decreases |keys|
  {
    if keys != [] {
      assert keys == keys[..|keys| - 1] + [keys[|keys| - 1]];
      AddedAllMembers(m, keys[..|keys| - 1], x, k);
    }
  }

  /** Exactly what connecting adds to a room's excess: its entries in the list, less one if it is newly listed. */
  lemma ConnectExcess(n: Node, user: string, rooms: seq<string>, r: string)
    ensures Excess(Connected(n, user, rooms), r)
         == Excess(n, r) + multiset(rooms)[r] - (if r in rooms && r !in Members(n.userRooms, user) then 1 else 0)
    ensures r in rooms <==> multiset(rooms)[r] > 0
  {
    BumpedCount(n.roomCount, rooms, r);
    var before, after := Listers(n, r), Listers(Connected(n, user, rooms), r);
    if r in rooms && r !in Members(n.userRooms, user) {
      assert after == before + {user} && user !in before;
    } else {
      assert after == before;
    }
  }

  /** A disconnect keeps the excess of every room. */
  lemma DisconnectExcess(n: Node, user: string, r: string)
    requires Excess(n, r) >= 0 && (r in n.roomCount <==> Count(n.roomCount, r) > 0)
    ensures Excess(Disconnected(n, user), r) == Excess(n, r)
    ensures var m := Disconnected(n, user);
            && (r in m.roomCount <==> Count(m.roomCount, r) > 0)
            && (r in GoneRooms(n, user) <==> Count(n.roomCount, r) > 0 && Count(m.roomCount, r) == 0)
  {
    var before, after := Listers(n, r), Listers(Disconnected(n, user), r);
    if UserGone(n, user) && r in Members(n.userRooms, user) {
      assert user in before && after == before - {user};
    } else {
      assert after == before;
    }
  }

  predicate FreshId(c: Cluster, id: string) { forall o :: o in c.open ==> o.id != id }

  lemma ConnectUser(c: Cluster, k: Connection, rooms: seq<string>, u: string, n: string)
    requires UserOk(c, u, n) && FreshId(c, k.id)
    ensures UserOk(Step(c, Connect(k, rooms)), u, n)
  {
    hide Bumped, AddedAll, Held, Step, Connected, RoomSet, NodeAt, Members, Count;
    ConnectHeld(c, k, rooms, u, n);
    ConnectStep(c, k, rooms, n);
    ConnectedUser(NodeAt(c, k.node), k.user, rooms, u);
    AddedMember(c.shared.userNodes, k.user, k.node, u, n);
  }

  lemma ConnectedUser(n: Node, user: string, rooms: seq<string>, u: string)
    ensures var m := Connected(n, user, rooms);
            && Count(m.connCount, u) == Count(n.connCount, u) + (if u == user then 1 else 0)
            && (u in m.connCount <==> u == user || u in n.connCount)
            && (u in m.userRooms <==> u == user || u in n.userRooms)
  {
  }

  lemma AddedMember(m: map<string, set<string>>, k: string, x: string, l: string, y: string)
    ensures y in Members(Added(m, k, x), l) <==> (l == k && y == x) || y in Members(m, l)
    ensures y in Members(Withdrawn(m, k, x), l) <==> !(l == k && y == x) && y in Members(m, l)
  {
  }

  lemma DisconnectedUser(n: Node, user: string, u: string)
    ensures var m := Disconnected(n, user);
            && (u != user ==> Count(m.connCount, u) == Count(n.connCount, u))
            && (u != user ==> (u in m.connCount <==> u in n.connCount) && (u in m.userRooms <==> u in n.userRooms))
            && (UserGone(n, user) ==> Count(m.connCount, user) == 0 && user !in m.connCount && user !in m.userRooms)
            && (!UserGone(n, user) ==> Count(m.connCount, user) == Count(n.connCount, user) - 1 && user in m.connCount)
            && (!UserGone(n, user) ==> m.userRooms == n.userRooms)
  {
  }

  lemma SameAt(s: set<string>, n: string, m: string)
    requires n != m
    ensures n in s <==> n in s + {m}
    ensures n in s <==> n in s - {m}
  {
  }

  lemma ConnectHeld(c: Cluster, k: Connection, rooms: seq<string>, u: string, n: string)
    requires FreshId(c, k.id)
    ensures var e := Held(Step(c, Connect(k, rooms)), u, n);
            if u == k.user && n == k.node then |e| == |Held(c, u, n)| + 1 && e != {} else e == Held(c, u, n)
  {
    hide Bumped, AddedAll, Connected, SharedAfterConnect;
    var d := Step(c, Connect(k, rooms));
    assert d.open == c.open + {k} && k !in c.open;
    if u == k.user && n == k.node {
      assert Held(d, u, n) == Held(c, u, n) + {k} && k !in Held(c, u, n);
    } else {
      assert Held(d, u, n) == Held(c, u, n);
    }
  }

  lemma ConnectStep(c: Cluster, k: Connection, rooms: seq<string>, n: string)
    requires FreshId(c, k.id)
    ensures var d := Step(c, Connect(k, rooms));
            && NodeAt(d, n) == (if n == k.node then Connected(NodeAt(c, n), k.user, rooms) else NodeAt(c, n))
            && d.shared == SharedAfterConnect(c.shared, k.node, k.user, k.id, rooms)
  {
  }

  lemma ConnectRoom(c: Cluster, k: Connection, rooms: seq<string>, r: string, n: string)
    requires RoomOk(c, r, n) && FreshId(c, k.id)
    ensures RoomOk(Step(c, Connect(k, rooms)), r, n)
  {
    hide Bumped, AddedAll, Excess;
    AddedAllMembers(c.shared.roomNodes, rooms, k.node, r);
    BumpedCount(NodeAt(c, k.node).roomCount, rooms, r);
    ConnectExcess(NodeAt(c, k.node), k.user, rooms, r);
  }

  lemma ConnectInv(c: Cluster, k: Connection, rooms: seq<string>)
    requires Inv(c) && FreshId(c, k.id)
    ensures Inv(Step(c, Connect(k, rooms)))
  {
    hide UserOk, RoomOk;
    var d := Step(c, Connect(k, rooms));
    forall u, n ensures UserOk(d, u, n) { assert UserOk(c, u, n); ConnectUser(c, k, rooms, u, n); }
    forall r, n ensures RoomOk(d, r, n) { assert RoomOk(c, r, n); ConnectRoom(c, k, rooms, r, n); }
    ConnectConns(c, k, rooms);
  }

  lemma ConnectConns(c: Cluster, k: Connection, rooms: seq<string>)
    requires Inv(c) && FreshId(c, k.id)
    ensures var d := Step(c, Connect(k, rooms));
            && (forall x :: ConnOk(d, x))
            && (forall u, id :: id in Members(d.shared.userConns, u) ==> exists x :: x in d.open && x.user == u && x.id == id)
            && (forall id :: id in d.shared.connHub ==> exists x :: x in d.open && x.id == id)
  {
    hide UserOk, RoomOk, AddedAll, Bumped;
    var d := Step(c, Connect(k, rooms));
    forall x ensures ConnOk(d, x) { assert ConnOk(c, x); }
    forall u, id | id in Members(d.shared.userConns, u) ensures exists x :: x in d.open && x.user == u && x.id == id {
      if id in Members(c.shared.userConns, u) {
        var x :| x in c.open && x.user == u && x.id == id;
        assert x in d.open;
      } else {
        assert k in d.open;
      }
    }
    forall id | id in d.shared.connHub ensures exists x :: x in d.open && x.id == id {
      if id != k.id {
        var x :| x in c.open && x.id == id;
        assert x in d.open;
      } else {
        assert k in d.open;
      }
    }
  }

  lemma DisconnectUser(c: Cluster, k: Connection, u: string, n: string)
    requires UserOk(c, u, n) && k in c.open
    ensures UserOk(Step(c, Disconnect(k)), u, n)
  {
    hide Held, Step, WithdrawnAll, Withdrawn, GoneRooms, Disconnected, NodeAt, Members, Count;
    DisconnectHeld(c, k, u, n);
    DisconnectStep(c, k, n);
    DisconnectedUser(NodeAt(c, k.node), k.user, u);
    AddedMember(c.shared.userNodes, k.user, k.node, u, n);
  }

  lemma DisconnectHeld(c: Cluster, k: Connection, u: string, n: string)
    requires k in c.open
    ensures var h, e := Held(c, u, n), Held(Step(c, Disconnect(k)), u, n);
            && (if u == k.user && n == k.node then |e| == |h| - 1 && h != {} else e == h)
            && (|e| <= 0 <==> e == {})
  {
    hide Disconnected, SharedAfterDisconnect;
    var d := Step(c, Disconnect(k));
    assert d.open == c.open - {k};
    if u == k.user && n == k.node {
      assert Held(d, u, n) == Held(c, u, n) - {k} && k in Held(c, u, n);
    } else {
      assert Held(d, u, n) == Held(c, u, n);
    }
  }

  lemma DisconnectStep(c: Cluster, k: Connection, n: string)
    requires k in c.open
    ensures var d := Step(c, Disconnect(k));
            && NodeAt(d, n) == (if n == k.node then Disconnected(NodeAt(c, n), k.user) else NodeAt(c, n))
            && d.shared == SharedAfterDisconnect(c.shared, k.node, NodeAt(c, k.node), k.user, k.id)
  {
  }

  lemma DisconnectRoom(c: Cluster, k: Connection, r: string, n: string)
    requires RoomOk(c, r, n) && RoomOk(c, r, k.node) && k in c.open
    ensures RoomOk(Step(c, Disconnect(k)), r, n)
  {
    hide Excess, Disconnected, GoneRooms, Step, WithdrawnAll;
    var gone := GoneRooms(NodeAt(c, k.node), k.user);
    DisconnectStep(c, k, n);
    DisconnectExcess(NodeAt(c, k.node), k.user, r);
    CountsAreNotNegative(NodeAt(c, k.node), k.user, r);
    WithdrawnMembers(c.shared.roomNodes, gone, k.node, r);
    if n != k.node {
      SameAt(Members(c.shared.roomNodes, r), n, k.node);
    }
  }

  lemma WithdrawnMembers(m: map<string, set<string>>, keys: set<string>, x: string, k: string)
    ensures Members(WithdrawnAll(m, keys, x), k) == if k in keys then Members(m, k) - {x} else Members(m, k)
  {
  }

  lemma CountsAreNotNegative(n: Node, user: string, r: string)
    requires r in n.roomCount <==> Count(n.roomCount, r) > 0
    ensures 0 <= Count(Disconnected(n, user).roomCount, r) <= Count(n.roomCount, r) && Count(n.roomCount, r) >= 0
  {
  }

  lemma DisconnectConns(c: Cluster, k: Connection)
    requires Inv(c) && k in c.open
    ensures var d := Step(c, Disconnect(k));
            && (forall x :: ConnOk(d, x))
            && (forall u, id :: id in Members(d.shared.userConns, u) ==> exists x :: x in d.open && x.user == u && x.id == id)
            && (forall id :: id in d.shared.connHub ==> exists x :: x in d.open && x.id == id)
  {
    hide UserOk, RoomOk, GoneRooms, WithdrawnAll, Disconnected;
    var d := Step(c, Disconnect(k));
    forall x ensures ConnOk(d, x) { assert ConnOk(c, x); }
    forall u, id | id in Members(d.shared.userConns, u) ensures exists x :: x in d.open && x.user == u && x.id == id {
      assert id in Members(c.shared.userConns, u) && (u == k.user ==> id != k.id);
      var x :| x in c.open && x.user == u && x.id == id;
      assert x in d.open;
    }
    forall id | id in d.shared.connHub ensures exists x :: x in d.open && x.id == id {
      var x :| x in c.open && x.id == id;
      assert x in d.open;
    }
  }

  lemma DisconnectInv(c: Cluster, k: Connection)
    requires Inv(c) && k in c.open
    ensures Inv(Step(c, Disconnect(k)))
  {
    hide UserOk, RoomOk;
    var d := Step(c, Disconnect(k));
    forall u, n ensures UserOk(d, u, n) { assert UserOk(c, u, n); DisconnectUser(c, k, u, n); }
    forall r, n ensures RoomOk(d, r, n) { assert RoomOk(c, r, n) && RoomOk(c, r, k.node); DisconnectRoom(c, k, r, n); }
    DisconnectConns(c, k);
  }

  lemma {:induction false} RunInv(c: Cluster, actions: seq<Action>)
    requires Inv(c)
    ensures Inv(Run(c, actions))
    decreases |actions|
  {
    hide Inv, Connected, Disconnected, SharedAfterConnect, SharedAfterDisconnect;
    if actions != [] {
      match actions[0] {
        case Connect(k, rooms) => if FreshId(c, k.id) { ConnectInv(c, k, rooms); }
        case Disconnect(k) => if k in c.open { DisconnectInv(c, k); }
      }
      RunInv(Step(c, actions[0]), actions[1..]);
    }
  }

  /** In every reachable state the shared set of a user is the set of nodes holding one of the user's connections. */
  lemma UserNodesAreHolders(actions: seq<Action>, user: string, node: string)
    ensures var c := Run(EMPTY, actions);
            && (node in Members(c.shared.userNodes, user) <==> Count(NodeAt(c, node).connCount, user) > 0)
            && (node in Members(c.shared.userNodes, user) <==> exists k :: k in c.open && k.user == user && k.node == node)
  {
    hide Run;
    EmptyInv();
    RunInv(EMPTY, actions);
    var c := Run(EMPTY, actions);
    assert UserOk(c, user, node);
    assert Held(c, user, node) != {} ==> |Held(c, user, node)| > 0;
    if k :| k in c.open && k.user == user && k.node == node {
      assert k in Held(c, user, node);
    }
  }

  lemma TablesOfInv(c: Cluster, user: string, id: string)
    requires Inv(c)
    ensures id in Members(c.shared.userConns, user) <==> exists k :: k in c.open && k.user == user && k.id == id
    ensures id in c.shared.connHub <==> exists k :: k in c.open && k.id == id
    ensures forall k :: k in c.open && k.id == id ==> c.shared.connHub[id] == k.node
  {
    hide UserOk, RoomOk;
    forall k | k in c.open && k.id == id
      ensures id in Members(c.shared.userConns, k.user) && id in c.shared.connHub && c.shared.connHub[id] == k.node
    {
      assert ConnOk(c, k);
    }
  }

  /** The per-user connection set and the connection table list exactly the open connections. */
  lemma ConnectionTables(actions: seq<Action>, user: string, id: string)
    ensures var c := Run(EMPTY, actions);
            && (id in Members(c.shared.userConns, user) <==> exists k :: k in c.open && k.user == user && k.id == id)
            && (id in c.shared.connHub <==> exists k :: k in c.open && k.id == id)
            && (forall k :: k in c.open && k.id == id ==> c.shared.connHub[id] == k.node)
  {
    hide Run;
    EmptyInv();
    RunInv(EMPTY, actions);
    TablesOfInv(Run(EMPTY, actions), user, id);
  }

  /**
   * In every reachable state a room's local count is at least the number of local users listing it, and
   * the node is registered for the room exactly while the count is positive; so it is registered for
   * every room that a local user lists.
   */
  lemma RoomCountsCover(actions: seq<Action>, room: string, node: string)
    ensures var c := Run(EMPTY, actions);
            && Count(NodeAt(c, node).roomCount, room) >= |Listers(NodeAt(c, node), room)|
            && (node in Members(c.shared.roomNodes, room) <==> Count(NodeAt(c, node).roomCount, room) > 0)
            && (Listers(NodeAt(c, node), room) != {} ==> node in Members(c.shared.roomNodes, room))
  {
    hide Run;
    EmptyInv();
    RunInv(EMPTY, actions);
    var c := Run(EMPTY, actions);
    assert RoomOk(c, room, node);
    assert Listers(NodeAt(c, node), room) != {} ==> |Listers(NodeAt(c, node), room)| > 0;
  }

  /** A disconnect withdraws its node from a room only when no local user lists the room any more. */
  lemma WithdrawalIsSafe(actions: seq<Action>, k: Connection, room: string)
    requires k in Run(EMPTY, actions).open
    requires room in GoneRooms(NodeAt(Run(EMPTY, actions), k.node), k.user)
    ensures Listers(Disconnected(NodeAt(Run(EMPTY, actions), k.node), k.user), room) == {}
  {
    hide Run, GoneRooms, Disconnected;
    EmptyInv();
    RunInv(EMPTY, actions);
    var c := Run(EMPTY, actions);
    assert RoomOk(c, room, k.node);
    DisconnectExcess(NodeAt(c, k.node), k.user, room);
    NoneLeft(Listers(Disconnected(NodeAt(c, k.node), k.user), room));
  }

  lemma NoneLeft(s: set<string>)
    ensures |s| <= 0 <==> s == {}
  {
  }

  /** A connect that no other open connection of the user on the node precedes, with a repeat-free room list. */
  predicate Tidy(c: Cluster, a: Action) {
    a.Connect? ==>
      && Held(c, a.conn.user, a.conn.node) == {}
      && forall r :: r in a.rooms ==> multiset(a.rooms)[r] == 1
  }

  predicate AllTidy(c: Cluster, actions: seq<Action>)
    decreases |actions|
  {
    actions != [] ==> Tidy(c, actions[0]) && AllTidy(Step(c, actions[0]), actions[1..])
  }

  lemma {:induction false} TidyRunsCountExactly(c: Cluster, actions: seq<Action>, room: string, node: string)
    requires Inv(c) && AllTidy(c, actions) && Excess(NodeAt(c, node), room) == 0
    ensures Excess(NodeAt(Run(c, actions), node), room) == 0
    decreases |actions|
  {
    hide Excess, Connected, Disconnected, SharedAfterConnect, SharedAfterDisconnect, UserOk, RoomOk, Inv;
    if actions != [] {
      var d := Step(c, actions[0]);
      match actions[0] {
        case Connect(k, rooms) =>
          if FreshId(c, k.id) {
            ConnectInv(c, k, rooms);
            TidyConnect(c, k, rooms, room);
          }
        case Disconnect(k) =>
          if k in c.open {
            DisconnectInv(c, k);
            TidyDisconnect(c, k, room);
          }
      }
      TidyRunsCountExactly(d, actions[1..], room, node);
    }
  }

  lemma TidyConnect(c: Cluster, k: Connection, rooms: seq<string>, room: string)
    requires Inv(c) && Tidy(c, Connect(k, rooms))
    ensures Excess(Connected(NodeAt(c, k.node), k.user, rooms), room) == Excess(NodeAt(c, k.node), room)
  {
    hide Excess, Connected;
    assert UserOk(c, k.user, k.node);
    ConnectExcess(NodeAt(c, k.node), k.user, rooms, room);
  }

  lemma TidyDisconnect(c: Cluster, k: Connection, room: string)
    requires Inv(c) && k in c.open
    ensures Excess(Disconnected(NodeAt(c, k.node), k.user), room) == Excess(NodeAt(c, k.node), room)
  {
    assert RoomOk(c, room, k.node);
    DisconnectExcess(NodeAt(c, k.node), k.user, room);
  }

  /** A connect keeps a room's count exact if and only if its list has the room once and newly, or not at all. */
  lemma ConnectKeepsExact(n: Node, user: string, rooms: seq<string>, room: string)
    requires Excess(n, room) == 0
    ensures Excess(Connected(n, user, rooms), room) == 0
       <==> room !in rooms || (multiset(rooms)[room] == 1 && room !in Members(n.userRooms, user))
  {
    hide Excess, Connected;
    ConnectExcess(n, user, rooms, room);
  }

  /** A node all of whose connections belong to one user, and whose room entries are all for one room. */
  function Lone(user: string, room: string, conns: nat, entries: nat): Node {
    if conns > 0 then Node(map[user := conns], map[room := entries], map[user := {room}])
    else Node(map[], if entries > 0 then map[room := entries] else map[], map[])
  }

  lemma LoneConnects(user: string, room: string, k: nat)
    ensures Connected(Lone(user, room, k, k), user, [room]) == Lone(user, room, k + 1, k + 1)
  {
    var n := Lone(user, room, k, k);
    assert [room][..0] == [];
    assert Bumped(n.roomCount, [room]) == n.roomCount[room := Count(n.roomCount, room) + 1];
    assert RoomSet([room]) == {room};
    var m := Connected(n, user, [room]);
    assert m.connCount == map[user := k + 1];
    assert m.roomCount == map[room := k + 1];
    assert {room} + {room} == {room} && {} + {room} == {room};
    assert m.userRooms == map[user := {room}];
  }

  lemma LoneDisconnects(user: string, room: string)
    ensures Disconnected(Lone(user, room, 2, 2), user) == Lone(user, room, 1, 2)
    ensures Disconnected(Lone(user, room, 1, 2), user) == Lone(user, room, 0, 1)
  {
  }

  /** A user who opens two connections and closes both leaves the node registered for the room with nobody listing it. */
  lemma SecondConnectionLeaks(j: Connection, k: Connection, room: string)
    requires j.user == k.user && j.node == k.node && j.id != k.id
    ensures var c := Run(EMPTY, [Connect(j, [room]), Connect(k, [room]), Disconnect(j), Disconnect(k)]);
            && c.open == {} && Listers(NodeAt(c, k.node), room) == {}
            && Count(NodeAt(c, k.node).roomCount, room) == 1 && k.node in Members(c.shared.roomNodes, room)
  {
    hide Connected, Disconnected, SharedAfterConnect, SharedAfterDisconnect, NodeAt, Run;
    var u, n := k.user, k.node;
    var c1 := Step(EMPTY, Connect(j, [room]));
    var c2 := Step(c1, Connect(k, [room]));
    var c3 := Step(c2, Disconnect(j));
    var c4 := Step(c3, Disconnect(k));
    assert NodeAt(EMPTY, n) == Lone(u, room, 0, 0) by { NothingAt(n); }
    ConnectStep(EMPTY, j, [room], n);
    LoneConnects(u, room, 0);
    assert c1.open == {j};
    ConnectStep(c1, k, [room], n);
    LoneConnects(u, room, 1);
    assert c2.open == {j, k};
    DisconnectStep(c2, j, n);
    LoneDisconnects(u, room);
    assert c3.open == {k};
    DisconnectStep(c3, k, n);
    assert c4.open == {};
    RunFour(EMPTY, Connect(j, [room]), Connect(k, [room]), Disconnect(j), Disconnect(k));
    RoomCountsCover([Connect(j, [room]), Connect(k, [room]), Disconnect(j), Disconnect(k)], room, n);
  }

  lemma NothingAt(n: string)
    ensures NodeAt(EMPTY, n) == Node(map[], map[], map[])
  {
  }

  lemma RunCons(c: Cluster, a: Action, rest: seq<Action>)
    ensures Run(c, [a] + rest) == Run(Step(c, a), rest)
  {
  }

  lemma {:induction false} RunFour(c: Cluster, a: Action, b: Action, d: Action, e: Action)
    ensures Run(c, [a, b, d, e]) == Step(Step(Step(Step(c, a), b), d), e)
  {
    hide Step, Run;
    assert [a, b, d, e] == [a] + [b, d, e] && [b, d, e] == [b] + [d, e] && [d, e] == [d] + [e] && [e] == [e] + [];
    RunCons(c, a, [b, d, e]);
    RunCons(Step(c, a), b, [d, e]);
    RunCons(Step(Step(c, a), b), d, [e]);
    RunCons(Step(Step(Step(c, a), b), d), e, []);
    RunNone(Step(Step(Step(Step(c, a), b), d), e));
  }

  lemma RunNone(c: Cluster)
    ensures Run(c, []) == c
  {
  }

  // ----------------------------------------------------------------- routing

  datatype Message =
    | Direct(from: string, to: string, data: string)
    | Group(room: string, users: seq<string>, data: string)

  datatype Payload = Payload(origin: string, body: Message)

  /** The cluster with each node's channel of waiting payloads and the messages handed to its hub. */
  datatype Net = Net(cluster: Cluster, channels: map<string, seq<Payload>>, handed: map<string, seq<Message>>)

  function Queue<T>(m: map<string, seq<T>>, n: string): seq<T> {
    if n in m then m[n] else []
  }

  function Published(m: map<string, seq<Payload>>, targets: set<string>, p: Payload): map<string, seq<Payload>> {
    map n | n in m.Keys + targets :: if n in targets then Queue(m, n) + [p] else m[n]
  }

  /** The nodes a routing node reads from the shared sets; nothing when the read fails. */
  function Lookup(sh: Shared, msg: Message, ok: bool): Option<set<string>> {
    if !ok then None
    else if msg.Direct? then Some(Members(sh.userNodes, msg.to))
    else Some(Members(sh.roomNodes, msg.room))
  }

  function Targets(me: string, nodes: Option<set<string>>): set<string> {
    if nodes.None? then {} else nodes.value - {me}
  }

  /** Routing a message at a node: whether the read succeeds, and which publishes fail, are parameters. */
  function Routed(t: Net, me: string, msg: Message, ok: bool, failed: set<string>): Net {
    Net(t.cluster,
        Published(t.channels, Targets(me, Lookup(t.cluster.shared, msg, ok)) - failed, Payload(me, msg)),
        t.handed[me := Queue(t.handed, me) + [msg]])
  }

  /** A subscriber takes the next payload of its channel. */
  function Received(t: Net, n: string): Net {
    var q := Queue(t.channels, n);
    if q == [] then t
    else Net(t.cluster, t.channels[n := q[1..]],
             if q[0].origin == n then t.handed else t.handed[n := Queue(t.handed, n) + [q[0].body]])
  }

  datatype NetAction =
    | Move(a: Action)
    | Route(me: string, msg: Message, ok: bool, failed: set<string>)
    | Receive(n: string)

  function NetStep(t: Net, a: NetAction): Net {
    match a
    case Move(b) => t.(cluster := Step(t.cluster, b))
    case Route(me, msg, ok, failed) => Routed(t, me, msg, ok, failed)
    case Receive(n) => Received(t, n)
  }

  function NetRun(t: Net, actions: seq<NetAction>): Net
    decreases |actions|
  {
    if actions == [] then t else NetRun(NetStep(t, actions[0]), actions[1..])
  }

  /** The connects and disconnects of a run. */
  function Moves(actions: seq<NetAction>): seq<Action>
    decreases |actions|
  {
    if actions == [] then [] else (if actions[0].Move? then [actions[0].a] else []) + Moves(actions[1..])
  }

  /** Which connections are open, and which rooms a user is listed in at a node, after each step. */
  lemma ConnectionsFollow(c: Cluster, a: Action, k: Connection, n: string, u: string)
    ensures var d := Step(c, a);
            var goes := a.Disconnect? && a.conn in c.open;
            var comes := a.Connect? && !(exists o :: o in c.open && o.id == a.conn.id);
            && (k in d.open <==> (k in c.open && !(goes && a.conn == k)) || (comes && a.conn == k))
            && (n == a.conn.node && u == a.conn.user ==>
                 Members(NodeAt(d, n).userRooms, u)
                 == if comes then Members(NodeAt(c, n).userRooms, u) + set r | r in a.rooms
                    else if goes && Count(NodeAt(c, n).connCount, u) <= 1 then {} else Members(NodeAt(c, n).userRooms, u))
            && (n != a.conn.node || u != a.conn.user ==> Members(NodeAt(d, n).userRooms, u) == Members(NodeAt(c, n).userRooms, u))
  {
    hide SharedAfterConnect, SharedAfterDisconnect, Bumped, LowerCounts;
  }

  /** Messages do not disturb the connections: a run's cluster is that of its connects and disconnects alone. */
  lemma {:induction false} NetRunMoves(t: Net, actions: seq<NetAction>)
    ensures NetRun(t, actions).cluster == Run(t.cluster, Moves(actions))
    decreases |actions|
  {
    hide Step, Published, Targets, Lookup;
    if actions != [] {
      NetRunMoves(NetStep(t, actions[0]), actions[1..]);
      assert [] + Moves(actions[1..]) == Moves(actions[1..]);
      if actions[0].Move? { assert ([actions[0].a] + Moves(actions[1..]))[1..] == Moves(actions[1..]); }
    }
  }

  /** Whether a node should get the message: it routes it, or it holds a connection of the recipient, or it counts the room. */
  ghost predicate Owed(c: Cluster, me: string, msg: Message, ok: bool, failed: set<string>, n: string) {
    n == me || (ok && n !in failed &&
      match msg
      case Direct(_, to, _) => exists k :: k in c.open && k.user == to && k.node == n
      case Group(room, _, _) => Count(NodeAt(c, n).roomCount, room) > 0)
  }

  /** One copy for each routing on the run that owes the node its message. */
  ghost function OwedOver(t: Net, actions: seq<NetAction>, n: string): multiset<Message>
    decreases |actions|
  {
    if actions == [] then multiset{}
    else
      var a := actions[0];
      (if a.Route? && Owed(t.cluster, a.me, a.msg, a.ok, a.failed, n) then multiset{a.msg} else multiset{})
      + OwedOver(NetStep(t, a), actions[1..], n)
  }

  function InFlight(q: seq<Payload>): multiset<Message>
    decreases |q|
  {
    if q == [] then multiset{} else multiset{q[0].body} + InFlight(q[1..])
  }

  /** Every copy of a message that a node was handed or is still to receive. */
  function Copies(t: Net, n: string): multiset<Message> {
    multiset(Queue(t.handed, n)) + InFlight(Queue(t.channels, n))
  }

  predicate NoEcho(t: Net, n: string) {
    forall i :: 0 <= i < |Queue(t.channels, n)| ==> Queue(t.channels, n)[i].origin != n
  }

  lemma {:induction false} InFlightAppend(q: seq<Payload>, p: Payload)
    ensures InFlight(q + [p]) == InFlight(q) + multiset{p.body}
    decreases |q|
  {
    if q == [] {
      assert q + [p] == [p] && [p][1..] == [];
    } else {
      assert (q + [p])[1..] == q[1..] + [p];
      InFlightAppend(q[1..], p);
    }
  }

  lemma TargetsAreOwed(c: Cluster, me: string, msg: Message, ok: bool, failed: set<string>, n: string)
    requires Inv(c)
    ensures n in Targets(me, Lookup(c.shared, msg, ok)) - failed <==> n != me && Owed(c, me, msg, ok, failed, n)
  {
    hide UserOk, RoomOk, ConnOk;
    if msg.Direct? {
      assert UserOk(c, msg.to, n);
      HolderIff(c, msg.to, n);
    } else {
      assert RoomOk(c, msg.room, n);
      RegisteredIff(c, msg.room, n);
    }
  }

  lemma HolderIff(c: Cluster, user: string, node: string)
    requires UserOk(c, user, node)
    ensures node in Members(c.shared.userNodes, user) <==> exists k :: k in c.open && k.user == user && k.node == node
  {
    if k :| k in c.open && k.user == user && k.node == node {
      assert k in Held(c, user, node);
    }
    if k :| k in Held(c, user, node) {
      assert k in c.open && k.user == user && k.node == node;
    }
  }

  lemma RegisteredIff(c: Cluster, room: string, node: string)
    requires RoomOk(c, room, node)
    ensures node in Members(c.shared.roomNodes, room) <==> Count(NodeAt(c, node).roomCount, room) > 0
  {
  }

  lemma RouteCopies(t: Net, me: string, msg: Message, ok: bool, failed: set<string>, n: string)
    requires Inv(t.cluster) && NoEcho(t, n)
    ensures var d := Routed(t, me, msg, ok, failed);
            && NoEcho(d, n)
            && Copies(d, n) == Copies(t, n) + (if Owed(t.cluster, me, msg, ok, failed, n) then multiset{msg} else multiset{})
  {
    hide Inv, Owed, Targets, Lookup, InFlight;
    var d := Routed(t, me, msg, ok, failed);
    TargetsAreOwed(t.cluster, me, msg, ok, failed, n);
    OwnerIsOwed(t.cluster, me, msg, ok, failed);
    InFlightAppend(Queue(t.channels, n), Payload(me, msg));
  }

  lemma OwnerIsOwed(c: Cluster, me: string, msg: Message, ok: bool, failed: set<string>)
    ensures Owed(c, me, msg, ok, failed, me)
  {
  }

  /** Handing over the first waiting copy. */
  lemma HandedFirst(handed: seq<Message>, q: seq<Payload>)
    requires q != []
    ensures multiset(handed + [q[0].body]) + InFlight(q[1..]) == multiset(handed) + InFlight(q)
  {
  }

  lemma ReceiveCopies(t: Net, m: string, n: string)
    requires NoEcho(t, n)
    ensures NoEcho(Received(t, m), n) && Copies(Received(t, m), n) == Copies(t, n)
  {
    hide InFlight;
    var q, d := Queue(t.channels, n), Received(t, m);
    if m == n && q != [] {
      assert q[0].origin != n && Queue(d.channels, n) == q[1..];
      HandedFirst(Queue(t.handed, n), q);
    } else {
      assert Queue(d.channels, n) == q && Queue(d.handed, n) == Queue(t.handed, n);
    }
  }

  /**
   * On every run a node's handed and waiting copies grow by exactly one for each message it is owed,
   * and by none for any other: no copy is lost, repeated or forwarded again.
   */
  lemma {:induction false} CopiesAreOwed(t: Net, actions: seq<NetAction>, n: string)
    requires Inv(t.cluster) && NoEcho(t, n)
    ensures Copies(NetRun(t, actions), n) == Copies(t, n) + OwedOver(t, actions, n)
    ensures NoEcho(NetRun(t, actions), n)
    decreases |actions|
  {
    hide Inv, Owed, Routed, Received, Step, NoEcho, Copies;
    if actions != [] {
      var a := actions[0];
      match a {
        case Move(b) => MoveKeeps(t, b, n);
        case Route(me, msg, ok, failed) => RouteCopies(t, me, msg, ok, failed, n); RoutedCluster(t, me, msg, ok, failed);
        case Receive(m) => ReceiveCopies(t, m, n); ReceivedCluster(t, m);
      }
      CopiesAreOwed(NetStep(t, a), actions[1..], n);
    }
  }

  lemma MoveKeeps(t: Net, b: Action, n: string)
    requires Inv(t.cluster) && NoEcho(t, n)
    ensures var d := t.(cluster := Step(t.cluster, b));
            Inv(d.cluster) && NoEcho(d, n) && Copies(d, n) == Copies(t, n)
  {
    hide Inv, Step;
    RunInv(t.cluster, [b]);
    assert [b] == [b] + [];
    RunCons(t.cluster, b, []);
  }

  lemma RoutedCluster(t: Net, me: string, msg: Message, ok: bool, failed: set<string>)
    ensures Routed(t, me, msg, ok, failed).cluster == t.cluster
  {
  }

  lemma ReceivedCluster(t: Net, n: string)
    ensures Received(t, n).cluster == t.cluster
  {
  }

  const EMPTY_NET := Net(EMPTY, map[], map[])

  /** Once a node's channel is drained it was handed exactly one copy of every message it was owed, and nothing else. */
  lemma DeliveredExactlyOnce(actions: seq<NetAction>, n: string)
    requires Queue(NetRun(EMPTY_NET, actions).channels, n) == []
    ensures multiset(Queue(NetRun(EMPTY_NET, actions).handed, n)) == OwedOver(EMPTY_NET, actions, n)
  {
    hide NetRun, OwedOver, Inv;
    EmptyInv();
    NothingYet(n);
    CopiesAreOwed(EMPTY_NET, actions, n);
    DrainedCopies(NetRun(EMPTY_NET, actions), n);
  }

  lemma DrainedCopies(t: Net, n: string)
    requires Queue(t.channels, n) == []
    ensures Copies(t, n) == multiset(Queue(t.handed, n))
  {
  }

  lemma NothingYet(n: string)
    ensures Copies(EMPTY_NET, n) == multiset{} && NoEcho(EMPTY_NET, n)
  {
  }

  // ------------------------------------------------------------- the classes

  datatype Key = UserNodes(user: string) | RoomNodes(room: string) | UserConns(owner: string)

  /** The shared store: sets by key, strings by connection, and a channel for each node. */
  class RedisClient {
    var userNodes: map<string, set<string>>
    var roomNodes: map<string, set<string>>
    var userConns: map<string, set<string>>
    var connHub: map<string, string>
    var channels: map<string, seq<Payload>>

    ghost function View(): Shared
      reads this
    {
      Shared(userNodes, roomNodes, userConns, connHub)
    }

    method SAdd(key: Key, member: string)
      modifies this`userNodes, this`roomNodes, this`userConns
      ensures key.UserNodes? ==> View() == old(View()).(userNodes := Added(old(userNodes), key.user, member))
      ensures key.RoomNodes? ==> View() == old(View()).(roomNodes := Added(old(roomNodes), key.room, member))
      ensures key.UserConns? ==> View() == old(View()).(userConns := Added(old(userConns), key.owner, member))
    {
      match key {
        case UserNodes(u) => userNodes := userNodes[u := (if u in userNodes then userNodes[u] else {}) + {member}];
        case RoomNodes(r) => roomNodes := roomNodes[r := (if r in roomNodes then roomNodes[r] else {}) + {member}];
        case UserConns(u) => userConns := userConns[u := (if u in userConns then userConns[u] else {}) + {member}];
      }
    }

    method SRem(key: Key, member: string)
      modifies this`userNodes, this`roomNodes, this`userConns
      ensures key.UserNodes? ==> View() == old(View()).(userNodes := Withdrawn(old(userNodes), key.user, member))
      ensures key.RoomNodes? ==> View() == old(View()).(roomNodes := Withdrawn(old(roomNodes), key.room, member))
      ensures key.UserConns? ==> View() == old(View()).(userConns := Withdrawn(old(userConns), key.owner, member))
    {
      match key {
        case UserNodes(u) => userNodes := userNodes[u := (if u in userNodes then userNodes[u] else {}) - {member}];
        case RoomNodes(r) => roomNodes := roomNodes[r := (if r in roomNodes then roomNodes[r] else {}) - {member}];
        case UserConns(u) => userConns := userConns[u := (if u in userConns then userConns[u] else {}) - {member}];
      }
    }

    /** The members of a key, or nothing when the call fails. */
    method SMembers(key: Key, ok: bool) returns (nodes: Option<set<string>>)
      ensures nodes == if !ok then None else Some(
        match key
        case UserNodes(u) => Members(userNodes, u)
        case RoomNodes(r) => Members(roomNodes, r)
        case UserConns(u) => Members(userConns, u))
    {
      if !ok { return None; }
      match key {
        case UserNodes(u) => nodes := Some(if u in userNodes then userNodes[u] else {});
        case RoomNodes(r) => nodes := Some(if r in roomNodes then roomNodes[r] else {});
        case UserConns(u) => nodes := Some(if u in userConns then userConns[u] else {});
      }
    }

    method Publish(node: string, p: Payload, ok: bool)
      modifies this`channels
      ensures channels == if ok then old(channels)[node := Queue(old(channels), node) + [p]] else old(channels)
    {
      if !ok { return; }
      channels := channels[node := (if node in channels then channels[node] else []) + [p]];
    }
  }

  class Router {
    const nodeID: string
    const redis: RedisClient
    var localUserConnCount: map<string, int>
    var localRoomMemberCount: map<string, int>
    var localUserRooms: map<string, set<string>>
    var handed: seq<Message>

    ghost function View(): Node
      reads this
    {
      Node(localUserConnCount, localRoomMemberCount, localUserRooms)
    }

    constructor (nodeID: string, redis: RedisClient)
      ensures View() == Node(map[], map[], map[]) && handed == [] && this.nodeID == nodeID && this.redis == redis
    {
      this.nodeID, this.redis := nodeID, redis;
      localUserConnCount, localRoomMemberCount, localUserRooms, handed := map[], map[], map[], [];
    }

    method OnConnect(userID: string, connID: string, roomIDs: seq<string>)
      modifies this`localUserConnCount, this`localRoomMemberCount, this`localUserRooms, redis
      ensures View() == Connected(old(View()), userID, roomIDs)
      ensures redis.View() == SharedAfterConnect(old(redis.View()), nodeID, userID, connID, roomIDs)
      ensures redis.channels == old(redis.channels)
    {
      CountIn(userID, roomIDs);
      redis.SAdd(UserNodes(userID), nodeID);
      redis.SAdd(UserConns(userID), connID);
      redis.connHub := redis.connHub[connID := nodeID];
      AddRooms(roomIDs);
    }

    method CountIn(userID: string, roomIDs: seq<string>)
      modifies this`localUserConnCount, this`localRoomMemberCount, this`localUserRooms
      ensures View() == Connected(old(View()), userID, roomIDs)
    {
      hide RoomSet, Bumped;
      ghost var before := View();
      localUserConnCount := localUserConnCount[userID := Count(localUserConnCount, userID) + 1];
      if userID !in localUserRooms {
        localUserRooms := localUserRooms[userID := {}];
      }
      assert localUserRooms == Listing(before.userRooms, userID, []) by { ListNothing(before.userRooms, userID); }
      assert localRoomMemberCount == Bumped(before.roomCount, []) by { BumpNothing(before.roomCount); }
      CountRooms(before.userRooms, before.roomCount, userID, roomIDs);
    }

    method CountRooms(ghost listed: map<string, set<string>>, ghost counts: map<string, int>, userID: string, roomIDs: seq<string>)
      requires localUserRooms == Listing(listed, userID, []) && localRoomMemberCount == Bumped(counts, [])
      modifies this`localRoomMemberCount, this`localUserRooms
      ensures localUserRooms == Listing(listed, userID, roomIDs) && localRoomMemberCount == Bumped(counts, roomIDs)
    {
      hide Listing, Bumped;
      assert roomIDs[..0] == [];
      for i := 0 to |roomIDs|
        invariant localUserRooms == Listing(listed, userID, roomIDs[..i])
        invariant localRoomMemberCount == Bumped(counts, roomIDs[..i])
      {
        assert roomIDs[..i + 1] == roomIDs[..i] + [roomIDs[i]];
        ListOneMore(listed, userID, roomIDs[..i], roomIDs[i]);
        BumpOneMore(counts, roomIDs[..i], roomIDs[i]);
        localUserRooms := localUserRooms[userID := localUserRooms[userID] + {roomIDs[i]}];
        localRoomMemberCount := localRoomMemberCount[roomIDs[i] := Count(localRoomMemberCount, roomIDs[i]) + 1];
      }
      assert roomIDs[..|roomIDs|] == roomIDs;
    }

    method AddRooms(roomIDs: seq<string>)
      modifies redis
      ensures redis.View() == old(redis.View()).(roomNodes := AddedAll(old(redis.roomNodes), roomIDs, nodeID))
      ensures redis.channels == old(redis.channels)
    {
      ghost var sh, ch := redis.View(), redis.channels;
      for i := 0 to |roomIDs|
        invariant redis.View() == sh.(roomNodes := AddedAll(sh.roomNodes, roomIDs[..i], nodeID)) && redis.channels == ch
      {
        assert roomIDs[..i + 1][..i] == roomIDs[..i];
        redis.SAdd(RoomNodes(roomIDs[i]), nodeID);
      }
      assert roomIDs[..|roomIDs|] == roomIDs;
    }

    method OnDisconnect(userID: string, connID: string)
      modifies this`localUserConnCount, this`localRoomMemberCount, this`localUserRooms, redis
      ensures View() == Disconnected(old(View()), userID)
      ensures redis.View() == SharedAfterDisconnect(old(redis.View()), nodeID, old(View()), userID, connID)
      ensures redis.channels == old(redis.channels)
    {
      hide Disconnected, GoneRooms, WithdrawnAll;
      var userGone, goneRooms := CountOut(userID);
      redis.SRem(UserConns(userID), connID);
      redis.connHub := redis.connHub - {connID};
      if userGone {
        redis.SRem(UserNodes(userID), nodeID);
      }
      RemoveRooms(goneRooms);
    }

    /** The part under the mutex: the counts go down, and the rooms that nobody counts any more are collected. */
    method CountOut(userID: string) returns (userGone: bool, goneRooms: set<string>)
      modifies this`localUserConnCount, this`localRoomMemberCount, this`localUserRooms
      ensures View() == Disconnected(old(View()), userID)
      ensures userGone == UserGone(old(View()), userID) && goneRooms == GoneRooms(old(View()), userID)
    {
      hide LowerCounts;
      ghost var before := View();
      localUserConnCount := localUserConnCount[userID := Count(localUserConnCount, userID) - 1];
      userGone, goneRooms := localUserConnCount[userID] <= 0, {};
      if userGone {
        localUserConnCount := localUserConnCount - {userID};
        assert localUserConnCount == before.connCount - {userID};
        ghost var counts := localUserConnCount;
        var rooms := if userID in localUserRooms then localUserRooms[userID] else {};
        var todo := rooms;
        LowerNothing(before.roomCount);
        assert rooms - todo == {};
        while todo != {}
          invariant todo <= rooms && localUserConnCount == counts && localUserRooms == before.userRooms
          invariant localRoomMemberCount == LowerCounts(before.roomCount, rooms - todo)
          invariant goneRooms == GoneAmong(before.roomCount, rooms - todo)
        {
          var rid :| rid in todo;
          LowerOneMore(before.roomCount, rooms - todo, rid);
          assert rooms - todo + {rid} == rooms - (todo - {rid});
          localRoomMemberCount := localRoomMemberCount[rid := Count(localRoomMemberCount, rid) - 1];
          if localRoomMemberCount[rid] <= 0 {
            localRoomMemberCount := localRoomMemberCount - {rid};
            goneRooms := goneRooms + {rid};
          }
          todo := todo - {rid};
        }
        assert rooms - todo == rooms;
        localUserRooms := localUserRooms - {userID};
        assert goneRooms == GoneRooms(before, userID);
      }
    }

    method RemoveRooms(rooms: set<string>)
      modifies redis
      ensures redis.View() == old(redis.View()).(roomNodes := WithdrawnAll(old(redis.roomNodes), rooms, nodeID))
      ensures redis.channels == old(redis.channels)
    {
      hide WithdrawnAll;
      ghost var sh, ch := redis.View(), redis.channels;
      var todo := rooms;
      WithdrawNothing(sh.roomNodes, nodeID);
      assert rooms - todo == {};
      while todo != {}
        invariant todo <= rooms && redis.channels == ch
        invariant redis.View() == sh.(roomNodes := WithdrawnAll(sh.roomNodes, rooms - todo, nodeID))
      {
        var rid :| rid in todo;
        WithdrawOneMore(sh.roomNodes, rooms - todo, rid, nodeID);
        assert rooms - todo + {rid} == rooms - (todo - {rid});
        redis.SRem(RoomNodes(rid), nodeID);
        todo := todo - {rid};
      }
      assert rooms - todo == rooms;
    }

    /** Both routing methods: one copy to this node's hub, one payload to every other listed node. */
    method RouteMessage(msg: Message, ok: bool, failed: set<string>)
      modifies this`handed, redis`channels
      ensures handed == old(handed) + [msg]
      ensures redis.channels == Published(old(redis.channels),
                Targets(nodeID, Lookup(redis.View(), msg, ok)) - failed, Payload(nodeID, msg))
    {
      hide Published;
      ghost var ch, hs := redis.channels, handed;
      PublishNothing(ch, Payload(nodeID, msg));
      var key := if msg.Direct? then UserNodes(msg.to) else RoomNodes(msg.room);
      var nodes := redis.SMembers(key, ok);
      if nodes.None? || nodes.value == {} {
        assert Targets(nodeID, Lookup(redis.View(), msg, ok)) - failed == {};
        handed := handed + [msg];
        return;
      }
      var all, todo, local := nodes.value, nodes.value, false;
      ghost var sent: set<string> := {};
      while todo != {}
        invariant todo <= all && sent == all - todo - {nodeID} - failed && local == (nodeID in all - todo)
        invariant handed == if local then hs + [msg] else hs
        invariant redis.channels == Published(ch, sent, Payload(nodeID, msg))
      {
        var n :| n in todo;
        if n == nodeID {
          handed, local := handed + [msg], true;
        } else {
          PublishOneMore(ch, sent, n, Payload(nodeID, msg));
          redis.Publish(n, Payload(nodeID, msg), n !in failed);
          sent := if n in failed then sent else sent + {n};
        }
        todo := todo - {n};
      }
      assert sent == Targets(nodeID, Lookup(redis.View(), msg, ok)) - failed;
      if !local {
        handed := handed + [msg];
      }
    }

    method RouteDirectMessage(from: string, to: string, data: string, ok: bool, failed: set<string>)
      modifies this`handed, redis`channels
      ensures handed == old(handed) + [Direct(from, to, data)]
      ensures redis.channels == Published(old(redis.channels),
                Targets(nodeID, Lookup(redis.View(), Direct(from, to, data), ok)) - failed, Payload(nodeID, Direct(from, to, data)))
    {
      RouteMessage(Direct(from, to, data), ok, failed);
    }

    method RouteBroadcast(room: string, users: seq<string>, data: string, ok: bool, failed: set<string>)
      modifies this`handed, redis`channels
      ensures handed == old(handed) + [Group(room, users, data)]
      ensures redis.channels == Published(old(redis.channels),
                Targets(nodeID, Lookup(redis.View(), Group(room, users, data), ok)) - failed, Payload(nodeID, Group(room, users, data)))
    {
      RouteMessage(Group(room, users, data), ok, failed);
    }

    /** One round of the subscriber's loop: a payload goes to the hub unless it is this node's own, and never to a channel. */
    method Subscriber()
      modifies this`handed, redis`channels
      ensures forall t: Net :: t.channels == old(redis.channels) && Queue(t.handed, nodeID) == old(handed)
                ==> redis.channels == Received(t, nodeID).channels && handed == Queue(Received(t, nodeID).handed, nodeID)
    {
      var waiting := if nodeID in redis.channels then redis.channels[nodeID] else [];
      if waiting == [] { return; }
      var p := waiting[0];
      redis.channels := redis.channels[nodeID := waiting[1..]];
      if p.origin != nodeID {
        handed := handed + [p.body];
      }
    }
  }

  lemma ListNothing(m: map<string, set<string>>, user: string)
    ensures Listing(m, user, []) == if user in m then m else m[user := {}]
  {
    assert Members(m, user) + RoomSet([]) == Members(m, user);
  }

  lemma ListOneMore(m: map<string, set<string>>, user: string, rooms: seq<string>, r: string)
    ensures var l := Listing(m, user, rooms);
            user in l && Listing(m, user, rooms + [r]) == l[user := l[user] + {r}]
  {
    assert RoomSet(rooms + [r]) == RoomSet(rooms) + {r};
    assert Members(m, user) + RoomSet(rooms) + {r} == Members(m, user) + RoomSet(rooms + [r]);
  }

  lemma BumpNothing(m: map<string, int>)
    ensures Bumped(m, []) == m
  {
  }

  lemma BumpOneMore(m: map<string, int>, rooms: seq<string>, r: string)
    ensures var b := Bumped(m, rooms);
            Bumped(m, rooms + [r]) == b[r := Count(b, r) + 1]
  {
  }

  /** The listed rooms whose count one more departure brings to zero. */
  function GoneAmong(m: map<string, int>, rooms: set<string>): set<string> {
    set r | r in rooms && Count(m, r) - 1 <= 0
  }

  lemma LowerNothing(m: map<string, int>)
    ensures LowerCounts(m, {}) == m
  {
  }

  lemma LowerOneMore(m: map<string, int>, done: set<string>, r: string)
    requires r !in done
    ensures var l := LowerCounts(m, done);
            && Count(l, r) == Count(m, r)
            && LowerCounts(m, done + {r}) == (if Count(l, r) - 1 <= 0 then l[r := Count(l, r) - 1] - {r} else l[r := Count(l, r) - 1])
            && GoneAmong(m, done + {r}) == (if Count(l, r) - 1 <= 0 then GoneAmong(m, done) + {r} else GoneAmong(m, done))
  {
  }

  lemma WithdrawNothing(m: map<string, set<string>>, x: string)
    ensures WithdrawnAll(m, {}, x) == m
  {
  }

  lemma WithdrawOneMore(m: map<string, set<string>>, done: set<string>, r: string, x: string)
    requires r !in done
    ensures WithdrawnAll(m, done + {r}, x) == Withdrawn(WithdrawnAll(m, done, x), r, x)
  {
  }

  lemma PublishNothing(m: map<string, seq<Payload>>, p: Payload)
    ensures Published(m, {}, p) == m
  {
  }

  lemma PublishOneMore(m: map<string, seq<Payload>>, done: set<string>, n: string, p: Payload)
    requires n !in done
    ensures var q := Published(m, done, p);
            Published(m, done + {n}, p) == q[n := Queue(q, n) + [p]]
  {
  }
}
