/** From a node that routes a message to the channels of the clients at every node that should get it. */
module Delivery {
  import opened Basics
  import Hub = ConnectionHub
  import Router = HubRouter

  /** A hub handles the messages that the router hands it, one after the other. */
  function Handled(s: Hub.State, ms: seq<Router.Message>): Hub.State
    decreases |ms|
  {
    if ms == [] then s
    else
      var t := Handled(s, ms[..|ms| - 1]);
      match ms[|ms| - 1]
      case Direct(from, to, data) => Hub.Direct(t, from, to, data)
      case Group(_, users, data) => Hub.Broadcast(t, users, data)
  }

  /** The copies of a message that each client of a user should get. */
  function Copies(user: string, m: Router.Message): seq<string> {
    match m
    case Direct(from, to, data) => Hub.DirectCopies(user, from, to, data)
    case Group(_, users, data) => Hub.BroadcastCopies(user, users, data)
  }

  function AllCopies(user: string, ms: seq<Router.Message>): seq<string>
    decreases |ms|
  {
    if ms == [] then [] else AllCopies(user, ms[..|ms| - 1]) + Copies(user, ms[|ms| - 1])
  }

  lemma {:induction false} TookAppend(l: Hub.Line, a: seq<string>, b: seq<string>)
    ensures Hub.TookAll(l, a + b) == Hub.TookAll(Hub.TookAll(l, a), b)
    decreases |b|
  {
    hide Hub.Took;
    if b == [] {
      assert a + b == a;
      Hub.TookOneMore(Hub.TookAll(l, a), [], "");
    } else {
      var front, x := b[..|b| - 1], b[|b| - 1];
      TookAppend(l, a, front);
      assert a + b == (a + front) + [x] && b == front + [x];
      Hub.TookOneMore(l, a + front, x);
      Hub.TookOneMore(Hub.TookAll(l, a), front, x);
    }
  }

  /** Whatever a hub is handed, each client takes exactly the copies for its user, in order, as long as it has room. */
  lemma {:induction false} EachTakesItsCopies(s: Hub.State, ms: seq<Router.Message>, c: Hub.Client)
    requires Hub.Inv(s)
    ensures Hub.Inv(Handled(s, ms))
    ensures Hub.LineOf(Handled(s, ms), c) == Hub.TookAll(Hub.LineOf(s, c), AllCopies(c.user, ms))
    decreases |ms|
  {
    hide Hub.Inv, Hub.Direct, Hub.Broadcast, Hub.LineOf, Hub.Took, Hub.DirectCopies, Hub.BroadcastCopies;
    if ms == [] {
      Hub.TookOneMore(Hub.LineOf(s, c), [], "");
    } else {
      var front, m := ms[..|ms| - 1], ms[|ms| - 1];
      var t := Handled(s, front);
      EachTakesItsCopies(s, front, c);
      match m {
        case Direct(from, to, data) => Hub.DirectReaches(t, from, to, data, c); Hub.DirectInv(t, from, to, data);
        case Group(_, users, data) => Hub.BroadcastReaches(t, users, data, c); Hub.BroadcastInv(t, users, data);
      }
      TookAppend(Hub.LineOf(s, c), AllCopies(c.user, front), Copies(c.user, m));
    }
  }

  // ------------------------------------------------------- copies do not depend on order

  lemma {:induction false} AllCopiesAppend(user: string, a: seq<Router.Message>, b: seq<Router.Message>)
    ensures AllCopies(user, a + b) == AllCopies(user, a) + AllCopies(user, b)
    decreases |b|
  {
    hide Copies;
    if b == [] {
      assert a + b == a;
    } else {
      assert (a + b)[..|a + b| - 1] == a + b[..|b| - 1];
      AllCopiesAppend(user, a, b[..|b| - 1]);
    }
  }

  lemma OneMessage(user: string, m: Router.Message)
    ensures AllCopies(user, [m]) == Copies(user, m)
  {
    hide Copies;
    assert [m][..0] == [];
    assert AllCopies(user, [m][..0]) == [];
  }

  lemma WithoutOne<T>(s: seq<T>, i: nat)
    requires i < |s|
    ensures multiset(s) == multiset{s[i]} + multiset(Without(s, i)) && |Without(s, i)| == |s| - 1
  {
    assert s == s[..i] + [s[i]] + s[i + 1..];
  }

  function Without<T>(s: seq<T>, i: nat): seq<T>
    requires i < |s|
  {
    s[..i] + s[i + 1..]
  }

  lemma Cancel<T>(x: T, a: multiset<T>, b: multiset<T>)
    requires multiset{x} + a == multiset{x} + b
    ensures a == b
  {
    assert a == multiset{x} + a - multiset{x};
    assert b == multiset{x} + b - multiset{x};
  }

  lemma PulledOut(user: string, b: seq<Router.Message>, i: nat)
    requires i < |b|
    ensures multiset(AllCopies(user, b)) == multiset(Copies(user, b[i])) + multiset(AllCopies(user, Without(b, i)))
  {
    hide Copies, AllCopies;
    var left, right := b[..i], b[i + 1..];
    assert b == left + ([b[i]] + right);
    AllCopiesAppend(user, left, [b[i]] + right);
    AllCopiesAppend(user, [b[i]], right);
    AllCopiesAppend(user, left, right);
    OneMessage(user, b[i]);
  }

  lemma {:induction false} SameMessagesSameCopies(user: string, a: seq<Router.Message>, b: seq<Router.Message>)
    requires multiset(a) == multiset(b)
    ensures multiset(AllCopies(user, a)) == multiset(AllCopies(user, b))
    decreases |a|
  {
    hide Copies, AllCopies, Without;
    if a == [] {
      assert |b| == |multiset(b)| == 0;
    } else {
      assert a[0] in multiset(b);
      var i :| 0 <= i < |b| && b[i] == a[0];
      WithoutOne(a, 0);
      WithoutOne(b, i);
      PulledOut(user, a, 0);
      PulledOut(user, b, i);
      Cancel(a[0], multiset(Without(a, 0)), multiset(Without(b, i)));
      SameMessagesSameCopies(user, Without(a, 0), Without(b, i));
    }
  }

  // ---------------------------------------------------------------- end to end

  /** What a user's clients at a node should get on a run of the routers: the copies of every message the node is owed. */
  ghost function DueOver(t: Router.Net, actions: seq<Router.NetAction>, n: string, user: string): multiset<string>
    decreases |actions|
  {
    if actions == [] then multiset{}
    else
      var a := actions[0];
      (if a.Route? && Router.Owed(t.cluster, a.me, a.msg, a.ok, a.failed, n) then multiset(Copies(user, a.msg)) else multiset{})
      + DueOver(Router.NetStep(t, a), actions[1..], n, user)
  }

  /** The messages a node is owed, in the order they were routed. */
  ghost function OwedList(t: Router.Net, actions: seq<Router.NetAction>, n: string): seq<Router.Message>
    decreases |actions|
  {
    if actions == [] then []
    else
      var a := actions[0];
      (if a.Route? && Router.Owed(t.cluster, a.me, a.msg, a.ok, a.failed, n) then [a.msg] else [])
      + OwedList(Router.NetStep(t, a), actions[1..], n)
  }

  lemma {:induction false} OwedListIsOwed(t: Router.Net, actions: seq<Router.NetAction>, n: string, user: string)
    ensures multiset(OwedList(t, actions, n)) == Router.OwedOver(t, actions, n)
    ensures multiset(AllCopies(user, OwedList(t, actions, n))) == DueOver(t, actions, n, user)
    decreases |actions|
  {
    hide Copies, AllCopies, Router.Owed, Router.NetStep;
    NoCopies(user);
    if actions != [] {
      var a := actions[0];
      var u := Router.NetStep(t, a);
      OwedListIsOwed(u, actions[1..], n, user);
      if a.Route? && Router.Owed(t.cluster, a.me, a.msg, a.ok, a.failed, n) {
        AllCopiesAppend(user, [a.msg], OwedList(u, actions[1..], n));
        OneMessage(user, a.msg);
      } else {
        assert [] + OwedList(u, actions[1..], n) == OwedList(u, actions[1..], n);
      }
    }
  }

  lemma NoCopies(user: string)
    ensures AllCopies(user, []) == []
  {
  }

  /**
   * On every run of the routers, once a node's channel is drained, a registered client there with room in its
   * channel has got exactly the copies its user was due: one for each direct message to the user and one for
   * each from the user, one for each mention in a broadcast, of the messages routed here, or routed while the
   * recipient was connected here or the room counted here; and no other.
   */
  lemma ClientsGetTheirDue(actions: seq<Router.NetAction>, n: string, s: Hub.State, c: Hub.Client)
    requires Router.Queue(Router.NetRun(Router.EMPTY_NET, actions).channels, n) == []
    requires Hub.Inv(s) && c in s.clients
    requires |Hub.BufferOf(s, c)| + |DueOver(Router.EMPTY_NET, actions, n, c.user)| <= Hub.SEND_CAPACITY
    ensures var t := Handled(s, Router.Queue(Router.NetRun(Router.EMPTY_NET, actions).handed, n));
            && c in t.clients && Hub.BufferOf(s, c) <= Hub.BufferOf(t, c)
            && multiset(Hub.BufferOf(t, c)[|Hub.BufferOf(s, c)|..]) == DueOver(Router.EMPTY_NET, actions, n, c.user)
  {
    hide Hub.Inv, Handled, AllCopies, DueOver, Router.NetRun, OwedList, Hub.TookAll, Hub.BufferOf;
    var handed := Router.Queue(Router.NetRun(Router.EMPTY_NET, actions).handed, n);
    var owed := OwedList(Router.EMPTY_NET, actions, n);
    Router.DeliveredExactlyOnce(actions, n);
    OwedListIsOwed(Router.EMPTY_NET, actions, n, c.user);
    SameMessagesSameCopies(c.user, handed, owed);
    var copies := AllCopies(c.user, handed);
    assert |copies| == |multiset(copies)|;
    EachTakesItsCopies(s, handed, c);
    Hub.RoomForAll(Hub.LineOf(s, c), copies);
    assert (Hub.BufferOf(s, c) + copies)[|Hub.BufferOf(s, c)|..] == copies;
  }
}
