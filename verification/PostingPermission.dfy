/** Group membership and the cached permission to post: handlers that change rows and delete cache entries. */
module PostingPermission {
  import opened Basics
  import opened Text

  const SECOND := 1_000_000_000

  /** time.Time.Unix: whole seconds, for a time given in nanoseconds. */
  function Unix(t: int): int { t / SECOND }

  datatype Role = Owner | Admin | Plain

  datatype Member = Member(role: Role, left: Option<int>, mute: Option<int>)

  datatype Key = Key(room: string, user: string)

  datatype Room = Group(owner: string, dismissed: bool) | Direct

  /** A cached permission: both times in whole seconds, 0 when there is none. */
  datatype Permission = Permission(leftUnix: int, muteUnix: int)

  /**
   * The stored users, rooms and members, the two caches, and, for the properties, the cached permissions that
   * outlived a dismissal of their room although they do not say that the user left.
   */
  datatype State = State(users: set<string>, rooms: map<string, Room>, members: map<Key, Member>,
                         perms: map<Key, Permission>, ids: map<string, set<string>>, stale: set<Key>)

  datatype Verdict = Allowed | HasLeft | Muted | Failed

  predicate Blank(s: string) { GoTrim(s) == "" }

  /** What an id of a stored user or room is like. */
  predicate Tidy(s: string) { s != "" && GoTrim(s) == s }

  /** The cache is keyed by trimmed names. */
  function CacheKey(k: Key): Key { Key(GoTrim(k.room), GoTrim(k.user)) }

  // ------------------------------------------------------------- permission

  function UnixOr0(t: Option<int>): int { if t.Some? then Unix(t.value) else 0 }

  function Cached(m: Member): Permission { Permission(UnixOr0(m.left), UnixOr0(m.mute)) }

  function FromCache(p: Permission, now: int): Verdict {
    if p.leftUnix > 0 then HasLeft else if p.muteUnix > Unix(now) then Muted else Allowed
  }

  function FromRow(m: Member, now: int): Verdict {
    if m.left.Some? then HasLeft else if m.mute.Some? && m.mute.value > now then Muted else Allowed
  }

  /** What the cache and the database answer during one check. */
  datatype Answers = Answers(cacheGet: bool, dbGet: bool, cacheSet: bool)

  /** The cache is asked for the trimmed names, the database for the names as given. */
  function Checked(s: State, k: Key, now: int, a: Answers): (State, Verdict) {
    var c := CacheKey(k);
    if a.cacheGet && c in s.perms then (s, FromCache(s.perms[c], now))
    else if !a.dbGet || k !in s.members then (s, Failed)
    else
      (if a.cacheSet then s.(perms := s.perms[c := Cached(s.members[k])], stale := s.stale - {c}) else s,
       FromRow(s.members[k], now))
  }

  function Active(s: State, room: string): set<string> {
    set k | k in s.members && k.room == room && s.members[k].left.None? :: k.user
  }

  function MemberIds(s: State, room: string, a: Answers): (State, Option<set<string>>) {
    var c := GoTrim(room);
    if a.cacheGet && c in s.ids then (s, Some(s.ids[c]))
    else if !a.dbGet then (s, None)
    else (if a.cacheSet then s.(ids := s.ids[c := Active(s, room)]) else s, Some(Active(s, room)))
  }

  // ---------------------------------------------------------------- handlers

  /** The cache keys of the listed users of a room; blanks have none. */
  function Keys(room: string, users: set<string>): set<Key> {
    if Blank(room) then {} else set u | u in users && !Blank(u) :: CacheKey(Key(room, u))
  }

  function InvalidatedIds(ids: map<string, set<string>>, room: string): map<string, set<string>> {
    if Blank(room) then ids else ids - {GoTrim(room)}
  }

  function Users(members: map<Key, Member>, room: string): set<string> {
    set k | k in members && k.room == room :: k.user
  }

  /** A change of one room's rows, with the entries of the listed users and of the room dropped. */
  function Changed(s: State, room: string, members: map<Key, Member>, users: set<string>, dropIds: bool): State {
    s.(members := members, perms := s.perms - Keys(room, users), stale := s.stale - Keys(room, users),
       ids := if dropIds then InvalidatedIds(s.ids, room) else s.ids)
  }

  function LeftAt(m: map<Key, Member>, k: Key, now: int): map<Key, Member>
    requires k in m
  {
    m[k := m[k].(left := Some(now))]
  }

  predicate GroupExists(s: State, room: string) { room in s.rooms && s.rooms[room].Group? && !s.rooms[room].dismissed }

  predicate CanKick(operator: Member, target: Member) {
    operator.role.Owner? || (operator.role.Admin? && target.role.Plain?)
  }

  function RemoveMember(s: State, actor: string, room: string, user: string, now: int, dbOk: bool): State {
    var op, k := Key(room, actor), Key(room, user);
    if op !in s.members || k !in s.members || !CanKick(s.members[op], s.members[k]) || !dbOk then s
    else Changed(s, room, LeftAt(s.members, k, now), {user}, true)
  }

  function LeaveGroup(s: State, actor: string, room: string, now: int, dbOk: bool): State {
    var k := Key(room, actor);
    if k !in s.members || s.members[k].role.Owner? || !dbOk then s
    else Changed(s, room, LeftAt(s.members, k, now), {actor}, true)
  }

  function AllLeft(m: map<Key, Member>, room: string, now: int): map<Key, Member> {
    map k | k in m :: if k.room == room then m[k].(left := Some(now)) else m[k]
  }

  /** Whether the updates of the room and of its rows, and the read of its members for the cache, succeed. */
  datatype Dismissal = Dismissal(room: bool, rows: bool, read: bool)

  predicate OwnsGroup(s: State, actor: string, room: string) { GroupExists(s, room) && s.rooms[room].owner == actor }

  function Dismissed(s: State, room: string): State
    requires GroupExists(s, room)
  {
    s.(rooms := s.rooms[room := s.rooms[room].(dismissed := true)])
  }

  /** The entries of a room that let their users post or mute them. */
  function Outliving(s: State, room: string): set<Key> {
    set k | k in s.perms && k.room == room && s.perms[k].leftUnix <= 0
  }

  /** The rows may fail to be updated; without the members no permission is dropped. */
  function DismissGroup(s: State, actor: string, room: string, now: int, d: Dismissal): State {
    if !OwnsGroup(s, actor, room) || !d.room then s
    else
      var t := Changed(Dismissed(s, room), room, if d.rows then AllLeft(s.members, room, now) else s.members,
                       if d.read then Users(s.members, room) else {}, true);
      t.(stale := t.stale + if d.rows then Outliving(t, room) else {})
  }

  /** Who is added, in what way, and for whom the database fails: at the lookup or insert, or at the update. */
  datatype Adding = Adding(room: string, bad: set<string>, stuck: set<string>)

  predicate Adds(m: map<Key, Member>, a: Adding, user: string) {
    user !in a.bad && (Key(a.room, user) in m ==> m[Key(a.room, user)].left.Some?)
  }

  function AddedOne(m: map<Key, Member>, a: Adding, user: string): map<Key, Member> {
    var k := Key(a.room, user);
    if !Adds(m, a, user) then m
    else if k !in m then m[k := Member(Plain, None, None)]
    else if user in a.stuck then m
    else m[k := m[k].(left := None)]
  }

  function AddedRows(m: map<Key, Member>, a: Adding, users: seq<string>): map<Key, Member>
    decreases |users|
  {
    if users == [] then m else AddedOne(AddedRows(m, a, users[..|users| - 1]), a, users[|users| - 1])
  }

  /** addedUserIDs. */
  function AddedIds(m: map<Key, Member>, a: Adding, users: seq<string>): seq<string>
    decreases |users|
  {
    if users == [] then []
    else
      var last, front := users[|users| - 1], users[..|users| - 1];
      AddedIds(m, a, front) + if Adds(AddedRows(m, a, front), a, last) then [last] else []
  }

  function AsSet(users: seq<string>): set<string> { set u | u in users }

  predicate MayAdd(s: State, actor: string, room: string) {
    && GroupExists(s, room) && Key(room, actor) in s.members
    && !s.members[Key(room, actor)].role.Plain?
  }

  /** An insert also fails for a user that is not stored. */
  function Refusing(s: State, a: Adding, users: seq<string>): Adding {
    a.(bad := a.bad + (AsSet(users) - s.users))
  }

  function AddMembers(s: State, actor: string, given: Adding, users: seq<string>): State {
    if users == [] || !MayAdd(s, actor, given.room) then s
    else
      var a := Refusing(s, given, users);
      var added := AddedIds(s.members, a, users);
      Changed(s, a.room, AddedRows(s.members, a, users), AsSet(added), added != [])
  }

  /** One batch of new rows. */
  function NewMembers(m: map<Key, Member>, room: string, users: set<string>): map<Key, Member> {
    map k | k in m.Keys + (set u | u in users :: Key(room, u)) ::
      if k.room == room && k.user in users then Member(Plain, None, None) else m[k]
  }

  /** A room gets a new id. */
  predicate FreshRoom(s: State, room: string) { Tidy(room) && room !in s.rooms }

  /** Whether the inserts of the room, of its owner and of its other members succeed. */
  datatype Creation = Creation(room: bool, owner: bool, rows: bool)

  /** The batch of other members fails as a whole when one of them is not a stored user. */
  function CreateGroup(s: State, actor: string, room: string, name: string, users: seq<string>, d: Creation): State {
    if actor == "" || name == "" || actor !in s.users || !d.room || !FreshRoom(s, room) then s
    else
      var t, others := s.(rooms := s.rooms[room := Group(actor, false)]), AsSet(users) - {"", actor};
      if !d.owner then t
      else
        var owned := s.members[Key(room, actor) := Member(Owner, None, None)];
        t.(members := if d.rows && others <= s.users then NewMembers(owned, room, others) else owned)
  }

  /** AddAdmins: the owner of a room makes the listed, active members other than himself administrators. */
  function Promoted(s: State, actor: string, room: string, users: seq<string>, dbOk: bool): State {
    if users == [] || !OwnsGroup(s, actor, room) || !dbOk then s
    else s.(members := Promotions(s.members, actor, room, users))
  }

  function Promotions(m: map<Key, Member>, actor: string, room: string, users: seq<string>): map<Key, Member> {
    map k | k in m :: if k.room == room && k.user in users && k.user != actor && m[k].left.None? then m[k].(role := Admin) else m[k]
  }

  /** The users of a direct room that get a row: stored, without one, and with the database at work. */
  function Missing(s: State, room: string, users: seq<string>, bad: set<string>): set<string> {
    set u | u in users && u != "" && u in s.users && u !in bad && Key(room, u) !in s.members
  }

  /** ensureDirectRoomMembers, which drops no cache entry. */
  function Ensured(s: State, room: string, users: seq<string>, bad: set<string>): State {
    if room !in s.rooms || !s.rooms[room].Direct? then s
    else s.(members := NewMembers(s.members, room, Missing(s, room, users, bad)))
  }

  datatype Action =
    | Join(user: string)
    | Create(actor: string, room: string, name: string, users: seq<string>, made: Creation)
    | Add(actor: string, a: Adding, users: seq<string>)
    | Remove(actor: string, room: string, user: string, now: int, dbOk: bool)
    | Leave(actor: string, room: string, now: int, dbOk: bool)
    | Dismiss(actor: string, room: string, now: int, done: Dismissal)
    | Promote(actor: string, room: string, users: seq<string>, dbOk: bool)
    | OpenDirect(room: string)
    | Ensure(room: string, users: seq<string>, bad: set<string>)
    | Check(k: Key, now: int, answers: Answers)
    | List(room: string, answers: Answers)
    | Expire(k: Key)
    | ExpireIds(room: string)

  /** One handler, check or query; a member list is asked for only of a room that a message was just stored in. */
  function Step(s: State, act: Action): State {
    match act
    case Join(user) => if Tidy(user) then s.(users := s.users + {user}) else s
    case Create(actor, room, name, users, made) => CreateGroup(s, actor, room, name, users, made)
    case Add(actor, a, users) => AddMembers(s, actor, a, users)
    case Remove(actor, room, user, now, dbOk) => RemoveMember(s, actor, room, user, now, dbOk)
    case Leave(actor, room, now, dbOk) => LeaveGroup(s, actor, room, now, dbOk)
    case Dismiss(actor, room, now, done) => DismissGroup(s, actor, room, now, done)
    case Promote(actor, room, users, dbOk) => Promoted(s, actor, room, users, dbOk)
    case OpenDirect(room) => if FreshRoom(s, room) then s.(rooms := s.rooms[room := Direct]) else s
    case Ensure(room, users, bad) => Ensured(s, room, users, bad)
    case Check(k, now, answers) => Checked(s, k, now, answers).0
    case List(room, answers) => if room in s.rooms then MemberIds(s, room, answers).0 else s
    case Expire(k) => s.(perms := s.perms - {k}, stale := s.stale - {k})
    case ExpireIds(room) => s.(ids := s.ids - {room})
  }

  function Run(s: State, actions: seq<Action>): State
    decreases |actions|
  {
    if actions == [] then s else Run(Step(s, actions[0]), actions[1..])
  }

  // --------------------------------------------------------------- invariant

  predicate ModernRow(m: Member) { m.left.Some? ==> Unix(m.left.value) > 0 }

  /** Foreign keys: a row names a stored room and a stored user; and it says that its user left after the first second of 1970. */
  predicate RowOk(s: State, k: Key) {
    k in s.members ==> k.room in s.rooms && k.user in s.users && ModernRow(s.members[k])
  }

  /** An entry repeats its row, or is one that outlived the dismissal of its room. */
  predicate PermOk(s: State, k: Key) {
    && (k in s.perms ==>
          && k in s.members && s.perms[k].muteUnix == UnixOr0(s.members[k].mute)
          && (k !in s.stale ==> (s.perms[k].leftUnix > 0 <==> s.members[k].left.Some?)))
    && (k in s.stale ==>
          && k in s.perms && s.perms[k].leftUnix <= 0 && k in s.members && s.members[k].left.Some?
          && k.room in s.rooms && s.rooms[k.room].Group? && s.rooms[k.room].dismissed)
  }

  predicate IdsOk(s: State, room: string) {
    room in s.ids ==>
      && room in s.rooms && s.ids[room] <= Active(s, room)
      && (s.rooms[room].Group? ==> s.ids[room] == Active(s, room))
  }

  predicate NamesOk(s: State) {
    (forall u :: u in s.users ==> Tidy(u)) && (forall r :: r in s.rooms ==> Tidy(r))
  }

  ghost predicate Inv(s: State) {
    && NamesOk(s) && (forall k :: RowOk(s, k)) && (forall k :: PermOk(s, k)) && (forall room :: IdsOk(s, room))
  }

  /** Times at which users leave are read after the first second of 1970. */
  predicate ClockOk(act: Action) { act.Remove? || act.Leave? || act.Dismiss? ==> act.now >= SECOND }

  predicate ClocksOk(actions: seq<Action>) { forall i :: 0 <= i < |actions| ==> ClockOk(actions[i]) }

  lemma AfterTheFirstSecond(t: int)
    ensures t >= SECOND <==> Unix(t) > 0
  {
  }

  lemma TidyKey(k: Key)
    requires Tidy(k.room) && Tidy(k.user)
    ensures CacheKey(k) == k && !Blank(k.room) && !Blank(k.user)
  {
  }

  lemma KeysAre(s: State, room: string, users: set<string>, k: Key)
    requires NamesOk(s) && k.room in s.rooms && k.user in s.users
    ensures k.room == room && k.user in users ==> k in Keys(room, users)
  {
    hide GoTrim;
    TidyKey(k);
  }

  /** A change that leaves other rooms' rows alone, and the rows of users whose entries it keeps, keeps the entries right. */
  lemma ChangedInv(s: State, room: string, members: map<Key, Member>, users: set<string>, dropIds: bool)
    requires Inv(s) && room in s.rooms
    requires forall k: Key :: k.room != room || k.user !in users ==>
               (k in members <==> k in s.members) && (k in s.members ==> members[k] == s.members[k])
    requires forall k :: RowOk(s.(members := members), k)
    requires !dropIds ==> members == s.members
    ensures Inv(Changed(s, room, members, users, dropIds))
  {
    hide GoTrim, ModernRow, UnixOr0, Keys, Tidy;
    var t := Changed(s, room, members, users, dropIds);
    forall k ensures RowOk(t, k) { assert RowOk(s.(members := members), k); }
    forall k ensures PermOk(t, k) {
      assert PermOk(s, k) && RowOk(s, k);
      if k in s.members { KeysAre(s, room, users, k); }
    }
    TidyRoom(s, room);
    forall r ensures IdsOk(t, r) { assert IdsOk(s, r); if r != room { assert Active(t, r) == Active(s, r); } }
  }

  lemma TidyRoom(s: State, room: string)
    requires NamesOk(s) && room in s.rooms
    ensures GoTrim(room) == room && !Blank(room)
  {
  }

  lemma LeftRows(s: State, k: Key, now: int)
    requires Inv(s) && k in s.members && now >= SECOND
    ensures forall j :: RowOk(s.(members := LeftAt(s.members, k, now)), j)
  {
    hide NamesOk, PermOk, IdsOk, Unix;
    AfterTheFirstSecond(now);
    forall j ensures RowOk(s.(members := LeftAt(s.members, k, now)), j) { assert RowOk(s, j) && RowOk(s, k); }
  }

  lemma RowRoom(s: State, k: Key)
    requires Inv(s) && k in s.members
    ensures k.room in s.rooms
  {
    assert RowOk(s, k);
  }

  lemma RemoveInv(s: State, actor: string, room: string, user: string, now: int, dbOk: bool)
    requires Inv(s) && now >= SECOND
    ensures Inv(RemoveMember(s, actor, room, user, now, dbOk))
  {
    hide Inv, Changed, RowOk;
    var k := Key(room, user);
    if k in s.members {
      RowRoom(s, k);
      LeftRows(s, k, now);
      ChangedInv(s, room, LeftAt(s.members, k, now), {user}, true);
    }
  }

  lemma LeaveInv(s: State, actor: string, room: string, now: int, dbOk: bool)
    requires Inv(s) && now >= SECOND
    ensures Inv(LeaveGroup(s, actor, room, now, dbOk))
  {
    hide Inv, Changed, RowOk;
    var k := Key(room, actor);
    if k in s.members {
      RowRoom(s, k);
      LeftRows(s, k, now);
      ChangedInv(s, room, LeftAt(s.members, k, now), {actor}, true);
    }
  }

  lemma DismissInv(s: State, actor: string, room: string, now: int, d: Dismissal)
    requires Inv(s) && now >= SECOND
    ensures Inv(DismissGroup(s, actor, room, now, d))
  {
    hide GoTrim, Unix, Keys, Tidy;
    var t := DismissGroup(s, actor, room, now, d);
    if OwnsGroup(s, actor, room) && d.room {
      TidyRoom(s, room);
      AfterTheFirstSecond(now);
      forall k ensures RowOk(t, k) && PermOk(t, k) {
        assert RowOk(s, k) && PermOk(s, k);
        if d.read && k in s.members { KeysAre(s, room, Users(s.members, room), k); }
      }
      forall r ensures IdsOk(t, r) { assert IdsOk(s, r); if r != room { assert Active(t, r) == Active(s, r); } }
    }
  }

  /** The loop adds no row but those of the users it lists as added. */
  lemma {:induction false} AddsOnlyAdded(m: map<Key, Member>, a: Adding, users: seq<string>, k: Key)
    requires k.room != a.room || k.user !in AddedIds(m, a, users)
    ensures var after := AddedRows(m, a, users);
            (k in after <==> k in m) && (k in m ==> after[k] == m[k])
    decreases |users|
  {
    if users != [] {
      AddsOnlyAdded(m, a, users[..|users| - 1], k);
    }
  }

  lemma {:induction false} NothingAdded(m: map<Key, Member>, a: Adding, users: seq<string>)
    requires AddedIds(m, a, users) == []
    ensures AddedRows(m, a, users) == m
    decreases |users|
  {
    if users != [] {
      NothingAdded(m, a, users[..|users| - 1]);
    }
  }

  lemma {:induction false} AddedRowsOk(s: State, a: Adding, users: seq<string>, k: Key)
    requires (forall j :: RowOk(s, j)) && a.room in s.rooms && (forall u :: u in users && u !in s.users ==> u in a.bad)
    ensures RowOk(s.(members := AddedRows(s.members, a, users)), k)
    decreases |users|
  {
    hide ModernRow;
    if users == [] {
      assert RowOk(s, k);
    } else {
      AddedRowsOk(s, a, users[..|users| - 1], k);
      NewRowIsModern();
    }
  }

  lemma NewRowIsModern()
    ensures forall m: Member :: m.left.None? ==> ModernRow(m)
  {
  }

  lemma AddInv(s: State, actor: string, given: Adding, users: seq<string>)
    requires Inv(s)
    ensures Inv(AddMembers(s, actor, given, users))
  {
    hide Inv, Changed, AddedRows, AddedIds, RowOk;
    var a := Refusing(s, given, users);
    var added, after := AddedIds(s.members, a, users), AddedRows(s.members, a, users);
    forall k: Key | k.room != a.room || k.user !in AsSet(added)
      ensures (k in after <==> k in s.members) && (k in s.members ==> after[k] == s.members[k])
    {
      AddsOnlyAdded(s.members, a, users, k);
    }
    if MayAdd(s, actor, a.room) {
      InvRows(s);
      forall k ensures RowOk(s.(members := after), k) { AddedRowsOk(s, a, users, k); }
      if added == [] { NothingAdded(s.members, a, users); }
      ChangedInv(s, a.room, after, AsSet(added), added != []);
    }
  }

  lemma InvRows(s: State)
    requires Inv(s)
    ensures forall k :: RowOk(s, k)
  {
  }

  lemma CreateInv(s: State, actor: string, room: string, name: string, users: seq<string>, d: Creation)
    requires Inv(s)
    ensures Inv(CreateGroup(s, actor, room, name, users, d))
  {
    hide Tidy, Cached, UnixOr0, ModernRow;
    var t := CreateGroup(s, actor, room, name, users, d);
    NewRowIsModern();
    if t != s {
      assert forall k: Key :: k.room != room ==> (k in t.members <==> k in s.members) && (k in s.members ==> t.members[k] == s.members[k]);
      forall k ensures RowOk(t, k) && PermOk(t, k) { assert RowOk(s, k) && PermOk(s, k); }
      forall r ensures IdsOk(t, r) { assert IdsOk(s, r); if r != room { assert Active(t, r) == Active(s, r); } }
    }
  }

  lemma EnsureInv(s: State, room: string, users: seq<string>, bad: set<string>)
    requires Inv(s)
    ensures Inv(Ensured(s, room, users, bad))
  {
    hide Tidy, Cached, UnixOr0, ModernRow;
    var t := Ensured(s, room, users, bad);
    NewRowIsModern();
    if t != s {
      assert forall k :: k in s.members ==> k in t.members && t.members[k] == s.members[k];
      forall k ensures RowOk(t, k) && PermOk(t, k) { assert RowOk(s, k) && PermOk(s, k); }
      forall r ensures IdsOk(t, r) { assert IdsOk(s, r); ActiveGrows(s, t, r); if r != room { assert Active(t, r) == Active(s, r); } }
    }
  }

  lemma ActiveGrows(s: State, t: State, room: string)
    requires forall k :: k in s.members ==> k in t.members && t.members[k] == s.members[k]
    ensures Active(s, room) <= Active(t, room)
  {
  }

  lemma CheckInv(s: State, k: Key, now: int, a: Answers)
    requires Inv(s)
    ensures Inv(Checked(s, k, now, a).0)
  {
    hide Tidy, UnixOr0, ModernRow, Blank, CacheKey;
    var t := Checked(s, k, now, a).0;
    if k in s.members {
      assert RowOk(s, k);
      TidyKey(k);
      CachedRow(s.members[k]);
    }
    forall j ensures RowOk(t, j) && PermOk(t, j) { assert RowOk(s, j) && PermOk(s, j); }
    forall r ensures IdsOk(t, r) { assert IdsOk(s, r); assert Active(t, r) == Active(s, r); }
  }

  lemma CachedRow(m: Member)
    requires ModernRow(m)
    ensures Cached(m).muteUnix == UnixOr0(m.mute) && (Cached(m).leftUnix > 0 <==> m.left.Some?)
  {
  }

  lemma PromoteInv(s: State, actor: string, room: string, users: seq<string>, dbOk: bool)
    requires Inv(s)
    ensures Inv(Promoted(s, actor, room, users, dbOk))
  {
    hide GoTrim, Tidy, UnixOr0, Unix;
    var t := Promoted(s, actor, room, users, dbOk);
    forall k ensures RowOk(t, k) && PermOk(t, k) { assert RowOk(s, k) && PermOk(s, k); }
    forall r ensures IdsOk(t, r) { assert IdsOk(s, r); assert Active(t, r) == Active(s, r); }
  }

  lemma JoinInv(s: State, user: string)
    requires Inv(s) && Tidy(user)
    ensures Inv(s.(users := s.users + {user}))
  {
    hide GoTrim, UnixOr0, ModernRow, Active, Tidy;
    var t := s.(users := s.users + {user});
    forall k ensures RowOk(t, k) && PermOk(t, k) { assert RowOk(s, k) && PermOk(s, k); }
    forall r ensures IdsOk(t, r) { assert IdsOk(s, r); SameActive(s, t, r); }
  }

  lemma OpenDirectInv(s: State, room: string)
    requires Inv(s) && FreshRoom(s, room)
    ensures Inv(s.(rooms := s.rooms[room := Direct]))
  {
    hide GoTrim, UnixOr0, ModernRow, Active, Tidy;
    var t := s.(rooms := s.rooms[room := Direct]);
    forall k ensures RowOk(t, k) && PermOk(t, k) { assert RowOk(s, k) && PermOk(s, k); }
    forall r ensures IdsOk(t, r) { assert IdsOk(s, r); SameActive(s, t, r); }
  }

  lemma SameActive(s: State, t: State, room: string)
    requires s.members == t.members
    ensures Active(s, room) == Active(t, room)
  {
  }

  lemma ListInv(s: State, room: string, a: Answers)
    requires Inv(s) && room in s.rooms
    ensures Inv(MemberIds(s, room, a).0)
  {
    hide GoTrim, UnixOr0, ModernRow, Tidy, Active;
    var t := MemberIds(s, room, a).0;
    TidyRoom(s, room);
    forall k ensures RowOk(t, k) && PermOk(t, k) { assert RowOk(s, k) && PermOk(s, k); }
    forall r ensures IdsOk(t, r) { assert IdsOk(s, r); SameActive(s, t, r); }
  }

  /** Entries may go at any time. */
  lemma ExpiryInv(s: State, act: Action)
    requires Inv(s) && (act.Expire? || act.ExpireIds?)
    ensures Inv(Step(s, act))
  {
    hide Tidy, UnixOr0, ModernRow, Active;
    var t := Step(s, act);
    forall k ensures RowOk(t, k) && PermOk(t, k) { assert RowOk(s, k) && PermOk(s, k); }
    forall r ensures IdsOk(t, r) { assert IdsOk(s, r); SameActive(s, t, r); }
  }

  lemma StepInv(s: State, act: Action)
    requires Inv(s) && ClockOk(act)
    ensures Inv(Step(s, act))
  {
    hide Inv, CreateGroup, AddMembers, RemoveMember, LeaveGroup, DismissGroup, Promoted, Checked, MemberIds, Ensured;
    match act
    case Create(actor, room, name, users, made) => CreateInv(s, actor, room, name, users, made);
    case Add(actor, a, users) => AddInv(s, actor, a, users);
    case Remove(actor, room, user, now, dbOk) => RemoveInv(s, actor, room, user, now, dbOk);
    case Leave(actor, room, now, dbOk) => LeaveInv(s, actor, room, now, dbOk);
    case Dismiss(actor, room, now, done) => DismissInv(s, actor, room, now, done);
    case Promote(actor, room, users, dbOk) => PromoteInv(s, actor, room, users, dbOk);
    case Ensure(room, users, bad) => EnsureInv(s, room, users, bad);
    case Check(k, now, answers) => CheckInv(s, k, now, answers);
    case List(room, answers) => if room in s.rooms { ListInv(s, room, answers); }
    case Expire(_) => ExpiryInv(s, act);
    case ExpireIds(_) => ExpiryInv(s, act);
    case Join(user) => if Tidy(user) { JoinInv(s, user); }
    case OpenDirect(room) => if FreshRoom(s, room) { OpenDirectInv(s, room); }
  }

  lemma {:induction false} RunInv(s: State, actions: seq<Action>)
    requires Inv(s) && ClocksOk(actions)
    ensures Inv(Run(s, actions))
    decreases |actions|
  {
    hide Inv, Step, ClockOk;
    if actions != [] {
      assert ClockOk(actions[0]);
      StepInv(s, actions[0]);
      RunInv(Step(s, actions[0]), actions[1..]);
    }
  }

  // ---------------------------------------------------------------- theorems

  /** No entries yet; stored names are tidy, rows keep to their foreign keys, and left times lie after the first second of 1970. */
  ghost predicate Start(s: State) {
    s.perms == map[] && s.ids == map[] && s.stale == {} && NamesOk(s) && forall k :: RowOk(s, k)
  }

  lemma StartInv(s: State)
    requires Start(s)
    ensures Inv(s)
  {
  }

  /**
   * What an entry made from a row answers: it agrees on having left, a cached mute is a mute, and the two
   * differ exactly while the mute still runs but ends within the present second.
   */
  lemma CacheAgainstRow(p: Permission, m: Member, now: int)
    requires now >= 0 && p.muteUnix == UnixOr0(m.mute) && (p.leftUnix > 0 <==> m.left.Some?)
    ensures FromCache(p, now) == HasLeft <==> FromRow(m, now) == HasLeft
    ensures FromCache(p, now) == Muted ==> FromRow(m, now) == Muted
    ensures FromCache(p, now) != FromRow(m, now)
       <==> m.left.None? && m.mute.Some? && m.mute.value > now && Unix(m.mute.value) == Unix(now)
    ensures FromCache(p, now) != FromRow(m, now) ==> m.mute.value - now < SECOND
  {
  }

  /**
   * On every run a cached permission belongs to a stored row. It agrees with the row on having left if and only
   * if it is not one that outlived the dismissal of its room; and then it answers as the row does, up to the
   * last second of a mute.
   */
  lemma {:induction false} CachedAnswersAsStored(s: State, actions: seq<Action>, k: Key, now: int)
    requires Start(s) && ClocksOk(actions) && now >= 0 && k in Run(s, actions).perms
    ensures var t := Run(s, actions);
            && k in t.members
            && var m, c := t.members[k], FromCache(t.perms[k], now);
               && ((c == HasLeft <==> FromRow(m, now) == HasLeft) <==> k !in t.stale)
               && (k !in t.stale && c == Muted ==> FromRow(m, now) == Muted)
               && (k !in t.stale ==>
                    (c != FromRow(m, now) <==> m.left.None? && m.mute.Some? && m.mute.value > now && Unix(m.mute.value) == Unix(now)))
  {
    hide Run, FromRow, UnixOr0, NamesOk, RowOk, IdsOk;
    StartInv(s);
    RunInv(s, actions);
    var t := Run(s, actions);
    assert PermOk(t, k);
    if k in t.stale {
      LeftRow(t.members[k], now);
    } else {
      CacheAgainstRow(t.perms[k], t.members[k], now);
    }
  }

  lemma LeftRow(m: Member, now: int)
    ensures FromRow(m, now) == HasLeft <==> m.left.Some?
  {
  }

  /** What a check answers for the row, when the cache has no entry: by the times themselves. */
  lemma RowVerdict(s: State, k: Key, now: int, a: Answers)
    requires !(a.cacheGet && CacheKey(k) in s.perms) && a.dbGet && k in s.members
    ensures var m, v := s.members[k], Checked(s, k, now, a).1;
            && (v == HasLeft <==> m.left != None)
            && (v == Muted <==> m.left == None && m.mute != None && m.mute.value > now)
            && (v == Allowed <==> m.left == None && (m.mute == None || m.mute.value <= now))
  {
    hide CacheKey;
  }

  /** A check leaves an entry exactly when there was one, or the row was read and could be cached; a query likewise. */
  lemma ChecksFillTheCache(s: State, k: Key, j: Key, room: string, r: string, now: int, a: Answers)
    ensures j in Checked(s, k, now, a).0.perms
       <==> j in s.perms || (j == CacheKey(k) && a.dbGet && k in s.members && a.cacheSet)
    ensures r in MemberIds(s, room, a).0.ids <==> r in s.ids || (r == GoTrim(room) && a.dbGet && a.cacheSet)
  {
    hide CacheKey, GoTrim, Active;
  }

  /** Groups are founded open, direct rooms opened, and only its owner dismisses a group; nothing else changes a room. */
  lemma RoomsFollow(s: State, act: Action, room: string)
    ensures var t := Step(s, act);
            && (room in t.rooms <==>
                  || room in s.rooms
                  || (act == OpenDirect(room) && Tidy(room))
                  || (act.Create? && act.room == room && Tidy(room) && act.actor != "" && act.name != "" && act.actor in s.users && act.made.room))
            && (room in s.rooms ==>
                  var goes := act.Dismiss? && act.room == room && OwnsGroup(s, act.actor, room) && act.done.room;
                  room in t.rooms && t.rooms[room] == if goes then s.rooms[room].(dismissed := true) else s.rooms[room])
            && (room in t.rooms && room !in s.rooms ==> t.rooms[room] == if act.Create? then Group(act.actor, false) else Direct)
  {
    hide Tidy, Keys, InvalidatedIds, Outliving, AddedRows, AddedIds, NewMembers, Cached, FromCache, FromRow, Active, CacheKey, CanKick, Missing;
    match act
    case Create(_, _, _, _, _) =>
    case Dismiss(_, _, _, _) =>
    case Add(_, _, _) =>
    case Remove(_, _, _, _, _) =>
    case Leave(_, _, _, _) =>
    case _ =>
  }

  /** A dismissal that marks its rows but cannot read them. */
  predicate BlindDismissal(act: Action) { act.Dismiss? && act.done.rows && !act.done.read }

  lemma StaleStep(s: State, act: Action)
    requires Inv(s) && !BlindDismissal(act)
    ensures Step(s, act).stale <= s.stale
  {
    hide GoTrim, Keys, AddedRows, AddedIds, Cached, FromCache, FromRow, UnixOr0;
    if act.Dismiss? && OwnsGroup(s, act.actor, act.room) && act.done.room && act.done.rows {
      forall k | k in s.perms && k.room == act.room ensures k in Keys(act.room, Users(s.members, act.room)) {
        assert PermOk(s, k) && RowOk(s, k);
        KeysAre(s, act.room, Users(s.members, act.room), k);
      }
    }
  }

  /** Entries outlive a dismissal only when it marks the rows as left and then fails to read whose entries to drop. */
  lemma {:induction false} OnlyBlindDismissals(s: State, actions: seq<Action>)
    requires Inv(s) && ClocksOk(actions) && forall i :: 0 <= i < |actions| ==> !BlindDismissal(actions[i])
    ensures Run(s, actions).stale <= s.stale
    decreases |actions|
  {
    hide Inv, Step, BlindDismissal, ClockOk;
    if actions != [] {
      assert !BlindDismissal(actions[0]) && ClockOk(actions[0]);
      StaleStep(s, actions[0]);
      OneStep(s, actions[0]);
      RunInv(s, [actions[0]]);
      OnlyBlindDismissals(Step(s, actions[0]), actions[1..]);
    }
  }

  lemma OneStep(s: State, act: Action)
    ensures Run(s, [act]) == Step(s, act)
  {
    hide Step;
    assert [act][1..] == [];
    assert Run(Step(s, act), []) == Step(s, act);
  }

  /** Which entries a dismissal leaves: those of other rooms, and all of its own room exactly when it cannot read the members. */
  lemma DismissalKeepsIff(s: State, actor: string, room: string, now: int, d: Dismissal, k: Key)
    requires Inv(s) && OwnsGroup(s, actor, room) && d.room && k in s.perms
    ensures k in DismissGroup(s, actor, room, now, d).perms <==> k.room != room || !d.read
  {
    hide GoTrim, UnixOr0, AllLeft;
    assert PermOk(s, k) && RowOk(s, k);
    TidyRoom(s, room);
    TidyKey(k);
    KeysAre(s, room, Users(s.members, room), k);
    NoKeys(room);
  }

  lemma NoKeys(room: string)
    ensures Keys(room, {}) == {}
  {
  }

  const WORKING := Answers(true, true, true)

  /** A new group whose creator is checked: his entry lets him post. */
  lemma CreatedAndChecked(s: State, actor: string, room: string, name: string, now: int)
    requires Start(s) && actor in s.users && name != "" && FreshRoom(s, room)
    ensures var k := Key(room, actor);
            var t := Step(Step(s, Create(actor, room, name, [], Creation(true, true, true))), Check(k, now, WORKING));
            && OwnsGroup(t, actor, room) && k in t.members && CacheKey(k) == k && !Blank(room)
            && k in t.perms && t.perms[k] == Permission(0, 0)
  {
    hide GoTrim, Unix, NewMembers, Tidy;
    var k := Key(room, actor);
    assert actor != "" && Tidy(actor) && Tidy(room) by { TidyIsText(actor); }
    TidyKey(k);
    NobodyNew(s.members[k := Member(Owner, None, None)], room, actor);
    var t1 := Step(s, Create(actor, room, name, [], Creation(true, true, true)));
    assert t1.members[k] == Member(Owner, None, None) && t1.rooms[room] == Group(actor, false) && t1.perms == map[];
  }

  lemma BlindlyDismissed(s: State, actor: string, room: string, now: int)
    requires OwnsGroup(s, actor, room) && Key(room, actor) in s.members && CacheKey(Key(room, actor)) == Key(room, actor)
    requires Key(room, actor) in s.perms && s.perms[Key(room, actor)] == Permission(0, 0) && now >= SECOND
    ensures var k, t := Key(room, actor), Step(s, Dismiss(actor, room, now, Dismissal(true, true, false)));
            && k in t.members && FromRow(t.members[k], now) == HasLeft && k in t.stale
            && Checked(t, k, now, WORKING).1 == Allowed
  {
    hide GoTrim, Keys, InvalidatedIds;
    NoKeys(room);
    AfterTheFirstSecond(now);
  }

  /** A run that ends so: a group is created, its owner checked, and the group dismissed blindly; the owner may still post. */
  lemma {:induction false} DismissedMayPost(s: State, actor: string, room: string, name: string, now: int)
    requires Start(s) && actor in s.users && name != "" && FreshRoom(s, room) && now >= SECOND
    ensures var k := Key(room, actor);
            var t := Run(s, [Create(actor, room, name, [], Creation(true, true, true)), Check(k, now, WORKING),
                             Dismiss(actor, room, now, Dismissal(true, true, false))]);
            && k in t.members && FromRow(t.members[k], now) == HasLeft
            && Checked(t, k, now, WORKING).1 == Allowed && k in t.stale
  {
    hide Run, Step, Checked, FromRow, FreshRoom;
    var a, b, c := Create(actor, room, name, [], Creation(true, true, true)), Check(Key(room, actor), now, WORKING),
                   Dismiss(actor, room, now, Dismissal(true, true, false));
    CreatedAndChecked(s, actor, room, name, now);
    BlindlyDismissed(Step(Step(s, a), b), actor, room, now);
    RunThree(s, a, b, c);
  }

  lemma TidyIsText(s: string)
    ensures Tidy(s) ==> s != ""
  {
  }

  lemma NobodyNew(m: map<Key, Member>, room: string, actor: string)
    ensures NewMembers(m, room, AsSet([]) - {"", actor}) == m
  {
  }

  lemma RunThree(s: State, a: Action, b: Action, c: Action)
    ensures Run(s, [a, b, c]) == Step(Step(Step(s, a), b), c)
  {
    hide Step;
    assert [a, b, c][1..] == [b, c] && [b, c][1..] == [c];
    assert Run(s, [a, b, c]) == Run(Step(s, a), [b, c]);
    assert Run(Step(s, a), [b, c]) == Run(Step(Step(s, a), b), [c]);
    OneStep(Step(Step(s, a), b), c);
  }

  /** On every run the cached member list of a group is exactly the set of its members who have not left. */
  lemma {:induction false} CachedListIsActive(s: State, actions: seq<Action>, room: string)
    requires Start(s) && ClocksOk(actions) && room in Run(s, actions).ids
    ensures var t := Run(s, actions);
            && room in t.rooms && t.ids[room] <= Active(t, room)
            && (t.rooms[room].Group? ==> t.ids[room] == Active(t, room))
  {
    hide Run, Active, NamesOk, PermOk, RowOk;
    StartInv(s);
    RunInv(s, actions);
    assert IdsOk(Run(s, actions), room);
  }

  /** Completing a direct room keeps its cached list right if and only if no row is missing, since the list is not dropped. */
  lemma EnsureKeepsListIff(s: State, room: string, users: seq<string>, bad: set<string>)
    requires Inv(s) && room in s.ids && room in s.rooms && s.rooms[room].Direct? && s.ids[room] == Active(s, room)
    ensures var t := Ensured(s, room, users, bad);
            t.ids[room] == Active(t, room) <==> Missing(s, room, users, bad) == {}
  {
    hide NamesOk, PermOk, RowOk, Missing;
    var t, news := Ensured(s, room, users, bad), Missing(s, room, users, bad);
    if u :| u in news {
      assert Key(room, u) !in s.members by { MissingHasNoRow(s, room, users, bad, u); }
      ActiveIff(t, room, u);
      ActiveIff(s, room, u);
    } else {
      assert t.members == s.members;
      assert Active(t, room) == Active(s, room);
    }
  }

  lemma MissingHasNoRow(s: State, room: string, users: seq<string>, bad: set<string>, u: string)
    requires u in Missing(s, room, users, bad)
    ensures Key(room, u) !in s.members
  {
  }

  lemma RunFour(s: State, a: Action, b: Action, c: Action, d: Action)
    ensures Run(s, [a, b, c, d]) == Step(Step(Step(Step(s, a), b), c), d)
  {
    hide Step;
    assert [a, b, c, d][1..] == [b, c, d];
    assert Run(s, [a, b, c, d]) == Run(Step(s, a), [b, c, d]);
    RunThree(Step(s, a), b, c, d);
  }

  /** A run on which a direct room's second row is inserted late, and its cached list goes on missing that user. */
  lemma {:induction false} DirectListMisses(s: State, room: string, x: string, y: string)
    requires Start(s) && x in s.users && y in s.users && x != y && FreshRoom(s, room)
    ensures var t := Run(s, [OpenDirect(room), Ensure(room, [x, y], {y}), List(room, WORKING), Ensure(room, [x, y], {})]);
            y in Active(t, room) && room in t.ids && y !in t.ids[room]
  {
    hide GoTrim, Run, Active, NewMembers, Tidy, Missing;
    var a, b, c, d := OpenDirect(room), Ensure(room, [x, y], {y}), List(room, WORKING), Ensure(room, [x, y], {});
    var t1 := Step(s, a);
    var t2 := Step(t1, b);
    var t3 := Step(t2, c);
    var t4 := Step(t3, d);
    assert RowOk(s, Key(room, y)) && Key(room, y) !in t1.members;
    TidyIsText(y);
    TidyRoom(t1, room);
    ActiveIff(t2, room, y);
    NewRows(t1.members, room, Missing(t1, room, [x, y], {y}), y);
    NotMissing(t1, room, [x, y], {y}, y);
    assert t3.ids[room] == Active(t2, room) && t3.members == t2.members;
    ActiveIff(t4, room, y);
    IsMissing(t3, room, [x, y], {}, y);
    NewRows(t3.members, room, Missing(t3, room, [x, y], {}), y);
    RunFour(s, a, b, c, d);
  }

  lemma NewRows(m: map<Key, Member>, room: string, users: set<string>, u: string)
    ensures var n := NewMembers(m, room, users);
            if u in users then ActiveRow(n, Key(room, u)) else Key(room, u) in n <==> Key(room, u) in m
  {
  }

  lemma NotMissing(s: State, room: string, users: seq<string>, bad: set<string>, u: string)
    requires u in bad
    ensures u !in Missing(s, room, users, bad)
  {
  }

  lemma IsMissing(s: State, room: string, users: seq<string>, bad: set<string>, u: string)
    requires u in users && u != "" && u in s.users && u !in bad && Key(room, u) !in s.members
    ensures u in Missing(s, room, users, bad)
  {
  }

  /**
   * Whatever names a check is given, its answer is about the row of the trimmed names: it says that this user
   * left only if the row says so, always unless the entry outlived a dismissal, and it fails exactly when the
   * cache has no entry and the database no row under the names as given.
   */
  lemma DepartedIsRefused(s: State, k: Key, now: int, a: Answers)
    requires Inv(s) && now >= 0
    ensures var v, c := Checked(s, k, now, a).1, CacheKey(k);
            && (v == Failed <==> !(a.cacheGet && c in s.perms) && (!a.dbGet || k !in s.members))
            && (v != Failed ==> c in s.members)
            && (v == HasLeft ==> s.members[c].left.Some?)
            && (c in s.members && s.members[c].left.Some? && c !in s.stale ==> v == HasLeft || v == Failed)
  {
    hide Tidy, CacheKey, UnixOr0, IdsOk;
    var c := CacheKey(k);
    assert PermOk(s, c);
    if k in s.members {
      assert RowOk(s, k);
      TidyKey(k);
    }
  }

  lemma StoredKey(s: State, k: Key)
    requires Inv(s) && k in s.members
    ensures NamesOk(s) && k.room in s.rooms && k.user in s.users && CacheKey(k) == k
  {
    assert RowOk(s, k);
    TidyKey(k);
  }

  // ---------------------------------------------------------- who is active

  /** The users that an add can make active: no lookup or insert fails, and no update of an old row. */
  predicate Addable(m: map<Key, Member>, a: Adding, user: string) {
    user !in a.bad && (Key(a.room, user) in m ==> user !in a.stuck)
  }

  predicate ActiveRow(m: map<Key, Member>, k: Key) { k in m && m[k].left.None? }

  lemma {:induction false} AddedRowActive(m: map<Key, Member>, a: Adding, users: seq<string>, k: Key)
    ensures ActiveRow(AddedRows(m, a, users), k)
       <==> ActiveRow(m, k) || (k.room == a.room && k.user in users && Addable(m, a, k.user))
    ensures k in m ==> k in AddedRows(m, a, users)
    ensures k in AddedRows(m, a, users) ==> k in m || (k.room == a.room && k.user in users && Addable(m, a, k.user))
    ensures k in m && k in AddedRows(m, a, users) ==> AddedRows(m, a, users)[k].role == m[k].role
    decreases |users|
  {
    if users != [] {
      var front, last := users[..|users| - 1], users[|users| - 1];
      assert users == front + [last];
      AddedRowActive(m, a, front, k);
      AddedRowActive(m, a, front, Key(a.room, last));
    }
  }

  /** The loop reports exactly the listed users who had no active row, as far as the database does not fail for them. */
  lemma {:induction false} AddedIdsAre(m: map<Key, Member>, a: Adding, users: seq<string>, u: string)
    ensures u in AddedIds(m, a, users) <==> u in users && u !in a.bad && !ActiveRow(m, Key(a.room, u))
    decreases |users|
  {
    hide AddedRows;
    if users != [] {
      var front, last := users[..|users| - 1], users[|users| - 1];
      assert users == front + [last];
      AddedIdsAre(m, a, front, u);
      AddedRowActive(m, a, front, Key(a.room, last));
      AddedIdsAre(m, a, front, last);
    }
  }

  lemma ActiveIff(s: State, room: string, user: string)
    ensures user in Active(s, room) <==> ActiveRow(s.members, Key(room, user))
  {
  }

  /** An add by an owner or administrator makes exactly the addable stored users active, besides those who were. */
  lemma AddActivates(s: State, actor: string, a: Adding, users: seq<string>, user: string)
    requires users != [] && MayAdd(s, actor, a.room)
    ensures user in Active(AddMembers(s, actor, a, users), a.room)
       <==> user in Active(s, a.room) || (user in users && user in s.users && Addable(s.members, a, user))
  {
    hide AddedRows, AddedIds, Active, Keys, InvalidatedIds, MayAdd;
    ActiveIff(s, a.room, user);
    ActiveIff(AddMembers(s, actor, a, users), a.room, user);
    AddedRowActive(s.members, Refusing(s, a, users), users, Key(a.room, user));
  }

  /**
   * A new group's active members are its creator, as owner, and the listed users, blanks and repeats ignored;
   * only the creator when one of them is unknown or their insert fails, and nobody when the owner's insert fails.
   */
  lemma CreateActivates(s: State, actor: string, room: string, name: string, users: seq<string>, d: Creation, user: string)
    requires Inv(s) && actor in s.users && name != "" && FreshRoom(s, room) && d.room
    ensures var t := CreateGroup(s, actor, room, name, users, d);
            && GroupExists(t, room) && t.rooms[room].owner == actor
            && (user in Active(t, room)
                <==> d.owner && (user == actor || (user in users && user != "" && d.rows && AsSet(users) - {"", actor} <= s.users)))
            && (user in Active(t, room) ==> t.members[Key(room, user)].role == if user == actor then Owner else Plain)
  {
    hide Active, IdsOk, PermOk;
    TidyIsText(actor);
    assert RowOk(s, Key(room, user));
    ActiveIff(CreateGroup(s, actor, room, name, users, d), room, user);
  }

  // --------------------------------------------------------------- the class

  class GroupService {
    var users: set<string>
    var rooms: map<string, Room>
    var members: map<Key, Member>
    var perms: map<Key, Permission>
    var ids: map<string, set<string>>
    ghost var stale: set<Key>

    ghost function View(): State
      reads this
    {
      State(users, rooms, members, perms, ids, stale)
    }

    constructor (users: set<string>, rooms: map<string, Room>, members: map<Key, Member>)
      ensures View() == State(users, rooms, members, map[], map[], {})
    {
      this.users, this.rooms, this.members := users, rooms, members;
      perms, ids, stale := map[], map[], {};
    }

    method InvalidatePermission(room: string, users: seq<string>)
      modifies this`perms, this`stale
      ensures perms == old(perms) - Keys(room, AsSet(users)) && stale == old(stale) - Keys(room, AsSet(users))
    {
      hide GoTrim;
      if Blank(room) { return; }
      var keys: set<Key> := {};
      for i := 0 to |users|
        invariant keys == set u | u in users[..i] && !Blank(u) :: CacheKey(Key(room, u))
      {
        assert users[..i + 1] == users[..i] + [users[i]];
        if !Blank(users[i]) {
          keys := keys + {Key(GoTrim(room), GoTrim(users[i]))};
        }
      }
      assert users[..|users|] == users;
      assert keys == Keys(room, AsSet(users));
      perms, stale := perms - keys, stale - keys;
    }

    method InvalidateMemberIDs(room: string)
      modifies this`ids
      ensures ids == InvalidatedIds(old(ids), room)
    {
      if Blank(room) { return; }
      ids := ids - {GoTrim(room)};
    }

    /** SELECT DISTINCT user_id of a room's rows. */
    method UserList(room: string) returns (users: seq<string>)
      ensures AsSet(users) == Users(members, room)
    {
      var all := Users(members, room);
      var todo := all;
      users := [];
      while todo != {}
        invariant todo <= all && AsSet(users) == all - todo
      {
        var u :| u in todo;
        AsSetGrows(users, u);
        users, todo := users + [u], todo - {u};
      }
    }

    method CheckGroupPostingPermission(k: Key, now: int, a: Answers) returns (v: Verdict)
      modifies this`perms, this`stale
      ensures (View(), v) == Checked(old(View()), k, now, a)
    {
      var c := Key(GoTrim(k.room), GoTrim(k.user));
      if a.cacheGet && c in perms {
        var cached := perms[c];
        if cached.leftUnix > 0 { return HasLeft; }
        if cached.muteUnix > Unix(now) { return Muted; }
        return Allowed;
      }
      if !a.dbGet || k !in members { return Failed; }
      var member := members[k];
      var leftUnix, muteUnix := 0, 0;
      if member.left.Some? { leftUnix := Unix(member.left.value); }
      if member.mute.Some? { muteUnix := Unix(member.mute.value); }
      if a.cacheSet {
        perms, stale := perms[c := Permission(leftUnix, muteUnix)], stale - {c};
      }
      if member.left.Some? { return HasLeft; }
      if member.mute.Some? && member.mute.value > now { return Muted; }
      return Allowed;
    }

    method GetGroupMemberIDs(room: string, a: Answers) returns (r: Option<set<string>>)
      modifies this`ids
      ensures (View(), r) == MemberIds(old(View()), room, a)
    {
      var c := GoTrim(room);
      if a.cacheGet && c in ids { return Some(ids[c]); }
      if !a.dbGet { return None; }
      var users := set k | k in members && k.room == room && members[k].left.None? :: k.user;
      if a.cacheSet {
        ids := ids[c := users];
      }
      return Some(users);
    }

    method Remove(actor: string, room: string, user: string, now: int, dbOk: bool) returns (ok: bool)
      modifies this`members, this`perms, this`ids, this`stale
      ensures View() == RemoveMember(old(View()), actor, room, user, now, dbOk)
      ensures ok ==> Key(room, user) in members && members[Key(room, user)].left == Some(now)
    {
      hide Keys, InvalidatedIds;
      var op, k := Key(room, actor), Key(room, user);
      if op !in members || k !in members { return false; }
      var canKick := false;
      if members[op].role.Owner? {
        canKick := true;
      } else if members[op].role.Admin? {
        if members[k].role.Plain? { canKick := true; }
      }
      if !canKick || !dbOk { return false; }
      members := members[k := members[k].(left := Some(now))];
      OneUser(user);
      InvalidatePermission(room, [user]);
      InvalidateMemberIDs(room);
      return true;
    }

    method Leave(actor: string, room: string, now: int, dbOk: bool) returns (ok: bool)
      modifies this`members, this`perms, this`ids, this`stale
      ensures View() == LeaveGroup(old(View()), actor, room, now, dbOk)
      ensures ok ==> Key(room, actor) in members && members[Key(room, actor)].left == Some(now)
    {
      hide Keys, InvalidatedIds;
      var k := Key(room, actor);
      if k !in members || members[k].role.Owner? || !dbOk { return false; }
      members := members[k := members[k].(left := Some(now))];
      OneUser(actor);
      InvalidatePermission(room, [actor]);
      InvalidateMemberIDs(room);
      return true;
    }

    /** The users of the room's rows, unless they cannot be read, lose their entries. */
    method InvalidatePermissionByRoom(room: string, readable: bool)
      modifies this`perms, this`stale
      ensures var gone := Keys(room, if readable then Users(members, room) else {});
              perms == old(perms) - gone && stale == old(stale) - gone
    {
      hide Keys;
      NoKeys(room);
      if !readable { return; }
      var all := UserList(room);
      InvalidatePermission(room, all);
    }

    /** AddAdmins. */
    method Promote(actor: string, room: string, list: seq<string>, dbOk: bool) returns (ok: bool)
      modifies this`members
      ensures View() == Promoted(old(View()), actor, room, list, dbOk)
      ensures ok <==> list != [] && OwnsGroup(old(View()), actor, room) && dbOk
    {
      if list == [] || room !in rooms || !rooms[room].Group? || rooms[room].dismissed || rooms[room].owner != actor || !dbOk {
        return false;
      }
      members := map k | k in members ::
        if k.room == room && k.user in list && k.user != actor && members[k].left.None? then members[k].(role := Admin) else members[k];
      return true;
    }

    method Dismiss(actor: string, room: string, now: int, d: Dismissal) returns (ok: bool)
      modifies this
      ensures View() == DismissGroup(old(View()), actor, room, now, d)
      ensures ok <==> OwnsGroup(old(View()), actor, room) && d.room
      ensures users == old(users)
    {
      hide Keys, InvalidatedIds;
      if room !in rooms || !rooms[room].Group? || rooms[room].dismissed || rooms[room].owner != actor || !d.room { return false; }
      rooms := rooms[room := rooms[room].(dismissed := true)];
      if d.rows {
        members := map k | k in members :: if k.room == room then members[k].(left := Some(now)) else members[k];
        SameUsers(old(members), room, now);
      }
      InvalidatePermissionByRoom(room, d.read);
      InvalidateMemberIDs(room);
      if d.rows {
        stale := stale + Outliving(View(), room);
      }
      return true;
    }

    method AddRows(a: Adding, users: seq<string>) returns (added: seq<string>)
      modifies this`members
      ensures members == AddedRows(old(members), a, users) && added == AddedIds(old(members), a, users)
    {
      added := [];
      for i := 0 to |users|
        invariant members == AddedRows(old(members), a, users[..i]) && added == AddedIds(old(members), a, users[..i])
      {
        assert users[..i + 1][..i] == users[..i] && users[..i + 1][i] == users[i];
        var uid := users[i];
        var k := Key(a.room, uid);
        if uid in a.bad { continue; }
        if k in members {
          if members[k].left.Some? {
            if uid !in a.stuck {
              members := members[k := members[k].(left := None)];
            }
            added := added + [uid];
          }
          continue;
        }
        members := members[k := Member(Plain, None, None)];
        added := added + [uid];
      }
      assert users[..|users|] == users;
    }

    method Add(actor: string, given: Adding, list: seq<string>) returns (ok: bool)
      modifies this`members, this`perms, this`ids, this`stale
      ensures View() == AddMembers(old(View()), actor, given, list)
      ensures ok <==> list != [] && MayAdd(old(View()), actor, given.room)
    {
      hide Keys, InvalidatedIds, AddedRows, AddedIds;
      var room := given.room;
      if list == [] || room !in rooms || !rooms[room].Group? || rooms[room].dismissed { return false; }
      if Key(room, actor) !in members || members[Key(room, actor)].role.Plain? { return false; }
      var added := AddRows(given.(bad := given.bad + (AsSet(list) - users)), list);
      InvalidatePermission(room, added);
      if |added| > 0 {
        InvalidateMemberIDs(room);
      }
      return true;
    }

    method Create(actor: string, room: string, name: string, list: seq<string>, d: Creation) returns (ok: bool)
      requires FreshRoom(View(), room)
      modifies this`rooms, this`members
      ensures View() == CreateGroup(old(View()), actor, room, name, list, d)
    {
      if actor == "" || name == "" || actor !in users || !d.room { return false; }
      rooms := rooms[room := Group(actor, false)];
      if !d.owner { return false; }
      members := members[Key(room, actor) := Member(Owner, None, None)];
      var news := Invited(actor, list);
      if |news| > 0 {
        if !d.rows || !(AsSet(news) <= users) { return false; }
        members := NewMembers(members, room, AsSet(news));
      } else {
        NoNewMembers(members, room);
      }
      return true;
    }

    method EnsureDirectRoomMembers(room: string, list: seq<string>, bad: set<string>)
      requires room in rooms && rooms[room].Direct?
      modifies this`members
      ensures View() == Ensured(old(View()), room, list, bad)
    {
      ghost var s := View();
      NoNewMembers(members, room);
      assert Missing(s, room, list[..0], bad) == {};
      for i := 0 to |list|
        invariant members == NewMembers(s.members, room, Missing(s, room, list[..i], bad))
      {
        assert list[..i + 1] == list[..i] + [list[i]];
        OneMoreMissing(s, room, list[..i], list[i], bad);
        var uid := list[i];
        if uid == "" || Key(room, uid) in members || uid !in users || uid in bad { continue; }
        members := members[Key(room, uid) := Member(Plain, None, None)];
      }
      assert list[..|list|] == list;
    }

    /** The rows to insert: each listed user once, without blanks and the owner. */
    method Invited(actor: string, users: seq<string>) returns (news: seq<string>)
      ensures AsSet(news) == AsSet(users) - {"", actor}
      ensures forall i, j :: 0 <= i < j < |news| ==> news[i] != news[j]
    {
      news := [];
      var seen := {actor};
      for i := 0 to |users|
        invariant forall u :: u in news <==> u in users[..i] && u != "" && u != actor
        invariant forall u :: u in seen <==> u == actor || u in news
        invariant forall j, k :: 0 <= j < k < |news| ==> news[j] != news[k]
      {
        assert users[..i + 1] == users[..i] + [users[i]];
        if users[i] == "" || users[i] in seen { continue; }
        seen, news := seen + {users[i]}, news + [users[i]];
      }
      assert users[..|users|] == users;
    }
  }

  lemma AsSetGrows(users: seq<string>, u: string)
    ensures AsSet(users + [u]) == AsSet(users) + {u}
  {
  }

  lemma OneUser(u: string)
    ensures AsSet([u]) == {u}
  {
  }

  lemma SameUsers(m: map<Key, Member>, room: string, now: int)
    ensures Users(AllLeft(m, room, now), room) == Users(m, room)
  {
  }

  lemma NoNewMembers(m: map<Key, Member>, room: string)
    ensures NewMembers(m, room, {}) == m
  {
  }

  lemma OneMoreMissing(s: State, room: string, list: seq<string>, u: string, bad: set<string>)
    ensures var m, n := NewMembers(s.members, room, Missing(s, room, list, bad)), NewMembers(s.members, room, Missing(s, room, list + [u], bad));
            n == if u == "" || Key(room, u) in m || u !in s.users || u in bad then m else m[Key(room, u) := Member(Plain, None, None)]
  {
    var a, b := Missing(s, room, list, bad), Missing(s, room, list + [u], bad);
    if u == "" || u !in s.users || u in bad || Key(room, u) in s.members || u in a {
      assert b == a;
    } else {
      assert b == a + {u};
    }
  }
}
