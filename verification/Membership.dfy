/** Who can take members out of a room, bring them in, and change their roles: exactly which actions do. */
module Membership {
  import opened Basics
  import opened Text
  import opened PostingPermission

  /** An open group, and somebody whose row in it is an owner's or an administrator's. */
  predicate OpenGroup(s: State, room: string) { room in s.rooms && s.rooms[room].Group? && !s.rooms[room].dismissed }

  predicate HasRole(s: State, room: string, user: string, roles: set<Role>) {
    Key(room, user) in s.members && s.members[Key(room, user)].role in roles
  }

  predicate Kicks(s: State, act: Action, k: Key)
    requires k in s.members
  {
    && act.Remove? && k == Key(act.room, act.user) && act.dbOk
    && (HasRole(s, act.room, act.actor, {Owner}) || (HasRole(s, act.room, act.actor, {Admin}) && s.members[k].role == Plain))
  }

  predicate Departs(s: State, act: Action, k: Key)
    requires k in s.members
  {
    act.Leave? && k == Key(act.room, act.actor) && act.dbOk && s.members[k].role != Owner
  }

  predicate Closes(s: State, act: Action, room: string) {
    act.Dismiss? && act.room == room && OpenGroup(s, room) && s.rooms[room].owner == act.actor && act.done.room && act.done.rows
  }

  predicate Appoints(s: State, act: Action, k: Key)
    requires k in s.members
  {
    && act.Promote? && act.room == k.room && OpenGroup(s, k.room) && s.rooms[k.room].owner == act.actor && act.dbOk
    && k.user in act.users && k.user != act.actor && s.members[k].left.None?
  }

  lemma RemoveRow(s: State, act: Action, k: Key)
    requires k in s.members && act.Remove?
    ensures k in Step(s, act).members
    ensures Step(s, act).members[k] == if Kicks(s, act, k) then s.members[k].(left := Some(act.now)) else s.members[k]
  {
    hide Keys, InvalidatedIds;
  }

  lemma LeaveRow(s: State, act: Action, k: Key)
    requires k in s.members && act.Leave?
    ensures k in Step(s, act).members
    ensures Step(s, act).members[k] == if Departs(s, act, k) then s.members[k].(left := Some(act.now)) else s.members[k]
  {
    hide Keys, InvalidatedIds;
  }

  lemma DismissRow(s: State, act: Action, k: Key)
    requires k in s.members && act.Dismiss?
    ensures k in Step(s, act).members
    ensures Step(s, act).members[k] == if Closes(s, act, k.room) then s.members[k].(left := Some(act.now)) else s.members[k]
  {
    hide Keys, InvalidatedIds, Outliving;
  }

  lemma PromoteRow(s: State, act: Action, k: Key)
    requires k in s.members && act.Promote?
    ensures k in Step(s, act).members
    ensures Step(s, act).members[k] == if Appoints(s, act, k) then s.members[k].(role := Admin) else s.members[k]
  {
  }

  /** No other action but an add touches a stored row. */
  lemma OtherRow(s: State, act: Action, k: Key)
    requires k in s.members && k.room in s.rooms
    requires !act.Remove? && !act.Leave? && !act.Dismiss? && !act.Promote? && !act.Add?
    ensures k in Step(s, act).members && Step(s, act).members[k] == s.members[k]
  {
    hide Cached, FromCache, FromRow, Active, CacheKey, Tidy;
  }

  lemma {:induction false} AddedRowMute(m: map<Key, Member>, a: Adding, users: seq<string>, k: Key)
    requires k in m
    ensures k in AddedRows(m, a, users) && AddedRows(m, a, users)[k].mute == m[k].mute
    decreases |users|
  {
    if users != [] { AddedRowMute(m, a, users[..|users| - 1], k); }
  }

  lemma AddRow(s: State, act: Action, k: Key)
    requires k in s.members && act.Add?
    ensures k in Step(s, act).members
    ensures var r, m := Step(s, act).members[k], s.members[k];
            r.role == m.role && r.mute == m.mute && (ActiveRow(s.members, k) ==> r == m)
  {
    hide Keys, InvalidatedIds, AddedRows, AddedIds;
    AddedRowActive(s.members, Refusing(s, act.a, act.users), act.users, k);
    AddedRowMute(s.members, Refusing(s, act.a, act.users), act.users, k);
  }

  lemma RowAfter(s: State, act: Action, k: Key)
    requires k in s.members && k.room in s.rooms
    ensures k in Step(s, act).members
    ensures var r, m := Step(s, act).members[k], s.members[k];
            && r.mute == m.mute && r.role == (if Appoints(s, act, k) then Admin else m.role)
            && (m.left.None? ==> (r.left.Some? <==> Kicks(s, act, k) || Departs(s, act, k) || Closes(s, act, k.room)))
  {
    hide Step, HasRole, OpenGroup;
    match act
    case Remove(_, _, _, _, _) => RemoveRow(s, act, k);
    case Leave(_, _, _, _) => LeaveRow(s, act, k);
    case Dismiss(_, _, _, _) => DismissRow(s, act, k);
    case Promote(_, _, _, _) => PromoteRow(s, act, k);
    case Add(_, _, _) => AddRow(s, act, k);
    case _ => OtherRow(s, act, k);
  }

  /** A member stops being active by a kick from above, by leaving unless the owner, or by the owner's dismissal. */
  lemma LosesMembershipIff(s: State, act: Action, k: Key)
    requires Inv(s) && ActiveRow(s.members, k)
    ensures !ActiveRow(Step(s, act).members, k) <==> Kicks(s, act, k) || Departs(s, act, k) || Closes(s, act, k.room)
  {
    hide Inv, Step, Kicks, Departs, Closes;
    StoredKey(s, k);
    RowAfter(s, act, k);
  }

  /** Roles and mutes of stored rows stay as they are, but the group's owner can make an active member an administrator. */
  lemma RoleChangesIff(s: State, act: Action, k: Key)
    requires Inv(s) && k in s.members
    ensures k in Step(s, act).members && Step(s, act).members[k].mute == s.members[k].mute
    ensures Step(s, act).members[k].role == if Appoints(s, act, k) then Admin else s.members[k].role
  {
    hide Inv, Step, Appoints;
    StoredKey(s, k);
    RowAfter(s, act, k);
  }

  predicate Founds(s: State, act: Action, k: Key) {
    && act.Create? && act.room == k.room && act.actor != "" && act.name != "" && act.actor in s.users && act.made.room && act.made.owner
    && FreshRoom(s, act.room)
    && (k.user == act.actor
        || (k.user in act.users && k.user != "" && act.made.rows && forall u :: u in act.users && u != "" && u != act.actor ==> u in s.users))
  }

  predicate Invites(s: State, act: Action, k: Key) {
    && act.Add? && act.a.room == k.room && OpenGroup(s, k.room) && HasRole(s, k.room, act.actor, {Owner, Admin})
    && k.user in act.users && k.user in s.users && k.user !in act.a.bad && (k in s.members ==> k.user !in act.a.stuck)
  }

  predicate Completes(s: State, act: Action, k: Key) {
    && act.Ensure? && act.room == k.room && k.room in s.rooms && s.rooms[k.room].Direct? && k !in s.members
    && k.user in act.users && k.user != "" && k.user in s.users && k.user !in act.bad
  }

  lemma InvitesIff(s: State, act: Action, k: Key)
    requires !ActiveRow(s.members, k) && act.Add?
    ensures ActiveRow(Step(s, act).members, k) <==> Invites(s, act, k)
    ensures ActiveRow(Step(s, act).members, k) && k !in s.members ==>
              k in Step(s, act).members && Step(s, act).members[k] == Member(Plain, None, None)
  {
    hide Keys, InvalidatedIds, AddedRows, AddedIds;
    AddedRowActive(s.members, Refusing(s, act.a, act.users), act.users, k);
    if k !in s.members { AddedRowNew(s.members, Refusing(s, act.a, act.users), act.users, k); }
  }

  lemma CompletesIff(s: State, act: Action, k: Key)
    requires !ActiveRow(s.members, k) && act.Ensure?
    ensures ActiveRow(Step(s, act).members, k) <==> Completes(s, act, k)
    ensures ActiveRow(Step(s, act).members, k) && k !in s.members ==>
              k in Step(s, act).members && Step(s, act).members[k] == Member(Plain, None, None)
  {
  }

  lemma NobodyGains(s: State, act: Action, k: Key)
    requires !ActiveRow(s.members, k) && !act.Add? && !act.Ensure? && !act.Create?
    ensures !ActiveRow(Step(s, act).members, k)
  {
    hide Keys, InvalidatedIds, Outliving, Cached, FromCache, FromRow, Active, CacheKey, Tidy, CanKick, GroupExists;
    match act
    case Remove(_, _, _, _, _) =>
    case Leave(_, _, _, _) =>
    case Dismiss(_, _, _, _) =>
    case Promote(_, _, _, _) =>
    case _ =>
  }

  /**
   * A user becomes active by being listed at the founding, by an add from an owner or administrator, or when a
   * direct room's rows are completed; a first row is the founder's as owner, and a plain member's otherwise.
   */
  lemma GainsMembershipIff(s: State, act: Action, k: Key)
    requires Inv(s) && !ActiveRow(s.members, k)
    ensures ActiveRow(Step(s, act).members, k) <==> Founds(s, act, k) || Invites(s, act, k) || Completes(s, act, k)
    ensures ActiveRow(Step(s, act).members, k) && k !in s.members ==>
              k in Step(s, act).members && Step(s, act).members[k] == Member(if act.Create? && k.user == act.actor then Owner else Plain, None, None)
  {
    hide Inv, Step, HasRole, OpenGroup, ActiveRow;
    match act
    case Create(_, _, _, _, _) => FoundsIff(s, act, k);
    case Add(_, _, _) => InvitesIff(s, act, k);
    case Ensure(_, _, _) => CompletesIff(s, act, k);
    case _ => NobodyGains(s, act, k);
  }

  lemma FoundsIff(s: State, act: Action, k: Key)
    requires Inv(s) && !ActiveRow(s.members, k) && act.Create?
    ensures ActiveRow(Step(s, act).members, k) <==> Founds(s, act, k)
    ensures ActiveRow(Step(s, act).members, k) && k !in s.members ==>
              k in Step(s, act).members && Step(s, act).members[k] == Member(if k.user == act.actor then Owner else Plain, None, None)
  {
    hide PermOk, IdsOk, Tidy;
    assert RowOk(s, k);
    TidyIsText(act.actor);
    var others := AsSet(act.users) - {"", act.actor};
    assert others <= s.users <==> forall u :: u in act.users && u != "" && u != act.actor ==> u in s.users;
  }

  lemma {:induction false} AddedRowNew(m: map<Key, Member>, a: Adding, users: seq<string>, k: Key)
    requires k !in m
    ensures k in AddedRows(m, a, users) ==> AddedRows(m, a, users)[k] == Member(Plain, None, None)
    decreases |users|
  {
    if users != [] { AddedRowNew(m, a, users[..|users| - 1], k); }
  }
}
