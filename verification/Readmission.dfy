/** How long a user who was removed from a group stays out of it. */
module Readmission {
  import opened Basics
  import opened Text
  import opened PostingPermission

  predicate Departed(s: State, k: Key) { k in s.members && s.members[k].left.Some? }

  /**
   * An add that takes the user back: listed by someone whose row is an owner's or administrator's, whether or not
   * that row says that its user left, and not stopped by the database.
   */
  predicate Readmits(s: State, act: Action, k: Key) {
    && act.Add? && act.users != [] && MayAdd(s, act.actor, act.a.room)
    && k.room == act.a.room && k.user in act.users && Addable(s.members, act.a, k.user)
  }

  predicate NeverReadmitted(s: State, more: seq<Action>, k: Key)
    decreases |more|
  {
    more != [] ==> !Readmits(s, more[0], k) && NeverReadmitted(Step(s, more[0]), more[1..], k)
  }

  /** The user's row says that the user left, now and after each further step. */
  predicate OutThroughout(s: State, more: seq<Action>, k: Key)
    decreases |more|
  {
    Departed(s, k) && (more != [] ==> OutThroughout(Step(s, more[0]), more[1..], k))
  }

  // -------------------------------------------------------------------- steps

  lemma AddStep(s: State, act: Action, k: Key)
    requires Inv(s) && Departed(s, k) && act.Add?
    ensures k in Step(s, act).members && (Departed(Step(s, act), k) <==> !Readmits(s, act, k))
  {
    hide AddedRows, AddedIds, Keys, InvalidatedIds, MayAdd, Inv;
    StoredKey(s, k);
    AddedRowActive(s.members, Refusing(s, act.a, act.users), act.users, k);
  }

  lemma RowStep(s: State, act: Action, k: Key)
    requires Inv(s) && Departed(s, k) && !act.Add?
    ensures Departed(Step(s, act), k)
  {
    hide Keys, InvalidatedIds, Outliving, Cached, FromCache, FromRow, CanKick, Active, CacheKey, Inv, FreshRoom;
    StoredKey(s, k);
    FreshIsNew(s, k.room);
  }

  lemma FreshIsNew(s: State, room: string)
    requires room in s.rooms
    ensures !FreshRoom(s, room)
  {
  }

  /** While its row says that the user left, no entry outlives anything that would let the user post. */
  lemma StaysFresh(s: State, act: Action, k: Key)
    requires Inv(s) && Departed(s, k) && k !in s.stale
    ensures k !in Step(s, act).stale
  {
    hide Keys, InvalidatedIds, AllLeft, NamesOk, RowOk, IdsOk, Active, Cached, FromRow, FromCache;
    if BlindDismissal(act) {
      assert PermOk(s, k);
    } else {
      StaleStep(s, act);
    }
  }

  lemma {:induction false} OutIffNotReadmitted(s: State, more: seq<Action>, k: Key)
    requires Inv(s) && ClocksOk(more) && Departed(s, k)
    ensures OutThroughout(s, more, k) <==> NeverReadmitted(s, more, k)
    ensures NeverReadmitted(s, more, k) ==> Departed(Run(s, more), k) && Inv(Run(s, more)) && (k !in s.stale ==> k !in Run(s, more).stale)
    decreases |more|
  {
    hide Inv, Step, Departed, Readmits, ClockOk;
    if more != [] {
      var act := more[0];
      assert ClockOk(act);
      StepInv(s, act);
      OutStep(s, act, k);
      if k !in s.stale { StaysFresh(s, act, k); }
      if Departed(Step(s, act), k) {
        OutIffNotReadmitted(Step(s, act), more[1..], k);
      } else {
        NotOut(Step(s, act), more[1..], k);
      }
    }
  }

  lemma OutStep(s: State, act: Action, k: Key)
    requires Inv(s) && Departed(s, k)
    ensures Departed(Step(s, act), k) <==> !Readmits(s, act, k)
  {
    hide Inv, Step, Departed, MayAdd, Addable;
    if act.Add? { AddStep(s, act, k); } else { RowStep(s, act, k); }
  }

  lemma NotOut(s: State, more: seq<Action>, k: Key)
    requires !Departed(s, k)
    ensures !OutThroughout(s, more, k)
  {
  }

  // ---------------------------------------------------------------- theorems

  /** A kick that goes through marks the row and drops the entry. */
  lemma Kicked(s: State, actor: string, room: string, user: string, now: int)
    requires Inv(s) && now >= SECOND && Key(room, actor) in s.members && Key(room, user) in s.members
    requires CanKick(s.members[Key(room, actor)], s.members[Key(room, user)])
    ensures var t := RemoveMember(s, actor, room, user, now, true);
            Inv(t) && Departed(t, Key(room, user)) && Key(room, user) !in t.stale
  {
    hide Inv, Keys, InvalidatedIds, CanKick;
    RemoveInv(s, actor, room, user, now, true);
    StoredKey(s, Key(room, user));
    KeysAre(s, room, {user}, Key(room, user));
  }

  /**
   * After a kick on any run, whatever happens next: the user is out at every moment if and only if no owner's or
   * administrator's row, left or not, takes the user back; and as long as that does not happen the user is not
   * active and no check of any spelling of the names lets the user post.
   */
  lemma RemovedStaysOutIff(s: State, actions: seq<Action>, actor: string, room: string, user: string, now: int,
                           more: seq<Action>, names: Key, later: int, a: Answers)
    requires Start(s) && ClocksOk(actions) && ClocksOk(more) && now >= SECOND && later >= 0
    requires var t := Run(s, actions);
             && Key(room, actor) in t.members && Key(room, user) in t.members
             && CanKick(t.members[Key(room, actor)], t.members[Key(room, user)])
    ensures var t, k := RemoveMember(Run(s, actions), actor, room, user, now, true), Key(room, user);
            && (OutThroughout(t, more, k) <==> NeverReadmitted(t, more, k))
            && (NeverReadmitted(t, more, k) ==> user !in Active(Run(t, more), room))
            && (NeverReadmitted(t, more, k) && CacheKey(names) == k ==> Checked(Run(t, more), names, later, a).1 in {HasLeft, Failed})
  {
    hide Run, Inv, Checked, RemoveMember, CanKick, CacheKey, OutThroughout, NeverReadmitted, Active;
    StartInv(s);
    RunInv(s, actions);
    var k := Key(room, user);
    Kicked(Run(s, actions), actor, room, user, now);
    var t := RemoveMember(Run(s, actions), actor, room, user, now, true);
    OutIffNotReadmitted(t, more, k);
    if NeverReadmitted(t, more, k) {
      ActiveIff(Run(t, more), room, user);
      DepartedIsRefused(Run(t, more), names, later, a);
    }
  }

  /** The group and its administrator. */
  lemma Appointed(s: State, owner: string, admin: string, room: string, name: string)
    requires Start(s) && owner in s.users && admin in s.users && owner != admin && FreshRoom(s, room) && name != ""
    ensures var t := Step(Step(s, Create(owner, room, name, [admin], Creation(true, true, true))), Promote(owner, room, [admin], true));
            && GroupExists(t, room) && t.users == s.users
            && Key(room, owner) in t.members && t.members[Key(room, owner)].role == Owner
            && Key(room, admin) in t.members && t.members[Key(room, admin)] == Member(Admin, None, None)
  {
    hide GoTrim;
    assert Tidy(owner) && Tidy(admin);
    assert AsSet([admin]) - {"", owner} == {admin};
  }

  /** The owner removes the administrator, whose role stays. */
  lemma AdminRemoved(s: State, owner: string, admin: string, room: string, now: int)
    requires GroupExists(s, room) && Key(room, owner) in s.members && s.members[Key(room, owner)].role == Owner
    requires Key(room, admin) in s.members && s.members[Key(room, admin)] == Member(Admin, None, None)
    ensures var t := Step(s, Remove(owner, room, admin, now, true));
            && GroupExists(t, room) && t.users == s.users
            && Key(room, admin) in t.members && t.members[Key(room, admin)] == Member(Admin, Some(now), None)
  {
    hide Keys, InvalidatedIds;
  }

  /** Someone with an administrator's row adds himself. */
  lemma AddsHimself(s: State, admin: string, room: string, now: int)
    requires GroupExists(s, room) && Key(room, admin) in s.members && admin in s.users
    requires s.members[Key(room, admin)] == Member(Admin, Some(now), None)
    ensures var k, t := Key(room, admin), Step(s, Add(admin, Adding(room, {}, {}), [admin]));
            && k in t.members && t.members[k] == Member(Admin, None, None) && t.perms == s.perms - Keys(room, {admin})
  {
    hide Keys, InvalidatedIds;
    var m, a := s.members, Refusing(s, Adding(room, {}, {}), [admin]);
    assert [admin][..0] == [];
    assert AddedRows(m, a, [admin][..0]) == m && AddedIds(m, a, [admin][..0]) == [];
    assert AddedIds(m, a, [admin]) == [admin];
    OneUser(admin);
  }

  /** Without an entry a check answers for the row. */
  lemma AsStored(s: State, k: Key, now: int)
    requires CacheKey(k) !in s.perms && k in s.members && s.members[k].left.None? && s.members[k].mute.None?
    ensures Checked(s, k, now, WORKING).1 == Allowed
  {
  }

  /** A run on which a group's owner removes an administrator, who then adds himself back and may post. */
  lemma {:induction false} RemovedAdminReturns(s: State, owner: string, admin: string, room: string, name: string, now: int, later: int)
    requires Start(s) && owner in s.users && admin in s.users && owner != admin && FreshRoom(s, room) && name != ""
    requires now >= SECOND
    ensures var removal := [Create(owner, room, name, [admin], Creation(true, true, true)), Promote(owner, room, [admin], true),
                            Remove(owner, room, admin, now, true)];
            && Departed(Run(s, removal), Key(room, admin))
            && var t := Run(s, removal + [Add(admin, Adding(room, {}, {}), [admin])]);
               admin in Active(t, room) && Checked(t, Key(room, admin), later, WORKING).1 == Allowed
  {
    hide Run, Step, Inv, Checked, Active, FreshRoom, Keys;
    var a, b, c := Create(owner, room, name, [admin], Creation(true, true, true)), Promote(owner, room, [admin], true),
                   Remove(owner, room, admin, now, true);
    var d := Add(admin, Adding(room, {}, {}), [admin]);
    assert [a, b, c] + [d] == [a, b, c, d];
    RunThree(s, a, b, c);
    RunFour(s, a, b, c, d);
    Appointed(s, owner, admin, room, name);
    var k, t2 := Key(room, admin), Step(Step(s, a), b);
    AdminRemoved(t2, owner, admin, room, now);
    var t3 := Step(t2, c);
    AddsHimself(t3, admin, room, now);
    StartInv(s);
    RunInv(s, [a, b, c]);
    StoredKey(t3, k);
    KeysAre(t3, room, {admin}, k);
    AsStored(Step(t3, d), k, later);
    ActiveIff(Step(t3, d), room, admin);
  }
}
