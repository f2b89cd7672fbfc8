/** What an event's end says about its last delivery, on every run. */
module DoneFates {
  import opened Basics
  import opened DoneEvents

  type Delivery = Option<(Message, Weather)>

  /** The event's latest delivery, when this step is one or after what was `seen`. */
  function Latest(s: State, a: Action, id: int, seen: Delivery): Delivery {
    if a.Take? && a.i < |s.queue| && s.queue[a.i].id == id then Some((s.queue[a.i], a.w)) else seen
  }

  /** The event's last delivery in a run. */
  function LastDelivery(c: Config, s: State, actions: seq<Action>, id: int, seen: Delivery): Delivery
    decreases |actions|
  {
    if actions == [] then seen
    else LastDelivery(c, Step(c, s, actions[0]), actions[1..], id, Latest(s, actions[0], id, seen))
  }

  /** What the last delivery left: an end from the table, or a copy that waits. */
  ghost predicate LeftBy(c: Config, s: State, id: int, seen: Delivery) {
    match seen
    case None => id !in s.ends && CountOf(s.handled, id) == 0
    case Some((m, w)) =>
      && id in s.budget && m.id == id
      && (id in s.ends ==> EndsAs(c, m, w, s.ends[id]))
      && (id !in s.ends ==> GoesBack(c, m, w) && exists n :: n in s.queue && NextCopy(m, n))
      && (Fits(c) && m.body.Event? && c.hasHandler ==> (Exhausted(c, m) <==> CountOf(s.handled, id) == s.budget[id]))
  }

  lemma LastFuel(c: Config, m: Message)
    ensures Exhausted(c, m) <==> Fuel(c.max, m) == 1
  {
  }

  lemma PublishLeaves(c: Config, s: State, m: Message, id: int, seen: Delivery)
    requires Inv(c, s) && LeftBy(c, s, id, seen) && m.id !in s.budget
    ensures LeftBy(c, Published(c, s, m), id, seen)
  {
    hide EndsAs, GoesBack, NextCopy, Exhausted, Fuel;
    var t := Published(c, s, m);
    assert forall n :: n in s.queue ==> n in t.queue;
  }

  lemma OtherTakeLeaves(c: Config, s: State, i: nat, w: Weather, id: int, seen: Delivery)
    requires LeftBy(c, s, id, seen) && i < |s.queue| && s.queue[i].id != id
    ensures LeftBy(c, Taken(c, s, i, w), id, seen)
  {
    hide EndsAs, GoesBack, Exhausted, Fuel, Delivered;
    if seen.Some? && id !in s.ends {
      var m := seen.value.0;
      var n :| n in s.queue && NextCopy(m, n);
      OthersStay(c, s, i, w, n);
    }
  }

  lemma OthersStay(c: Config, s: State, i: nat, w: Weather, n: Message)
    requires i < |s.queue| && n in s.queue && n != s.queue[i]
    ensures n in Taken(c, s, i, w).queue
  {
    hide Delivered;
    var k :| 0 <= k < |s.queue| && s.queue[k] == n;
    var rest, t := s.queue[..i] + s.queue[i + 1..], Taken(c, s, i, w);
    assert rest[if k < i then k else k - 1] == n;
    assert t.queue[if k < i then k else k - 1] == n;
  }

  lemma TakeLeaves(c: Config, s: State, i: nat, w: Weather)
    requires Inv(c, s) && i < |s.queue|
    ensures LeftBy(c, Taken(c, s, i, w), s.queue[i].id, Some((s.queue[i], w)))
  {
    hide EndsAs, GoesBack, NextCopy, Exhausted, Fuel, Delivered;
    var m, t := s.queue[i], Taken(c, s, i, w);
    assert CopyOk(c, s, i);
    DeliveredByTable(c, m, w);
    LastFuel(c, m);
    if Delivered(c, m, w).again.Some? {
      assert t.queue[|t.queue| - 1] == Delivered(c, m, w).again.value;
    }
  }

  lemma {:induction false} RunLeaves(c: Config, s: State, actions: seq<Action>, id: int, seen: Delivery)
    requires Inv(c, s) && LeftBy(c, s, id, seen)
    ensures LeftBy(c, Run(c, s, actions), id, LastDelivery(c, s, actions, id, seen))
    decreases |actions|
  {
    hide Inv, LeftBy, Published, Taken;
    if actions != [] {
      var a := actions[0];
      match a {
        case Publish(m) => if m.id !in s.budget { PublishLeaves(c, s, m, id, seen); PublishInv(c, s, m); }
        case Take(i, w) =>
          if i < |s.queue| {
            TakeInv(c, s, i, w);
            if s.queue[i].id == id { TakeLeaves(c, s, i, w); } else { OtherTakeLeaves(c, s, i, w, id, seen); }
          }
      }
      RunLeaves(c, Step(c, s, a), actions[1..], id, Latest(s, a, id, seen));
    }
  }

  /**
   * On every run an event that was never delivered has not ended. One that was has, by its last delivery: ended in a
   * way exactly when the table says so of that delivery; or not ended exactly when the handler failed before the
   * limit and both the pause and the publish succeeded, and then the next copy waits. The last attempt is the one
   * that uses up the handlings the first header allows.
   */
  lemma FatesAreAnswers(c: Config, actions: seq<Action>, id: int, f: Fate)
    ensures var s := Run(c, EMPTY, actions);
            match LastDelivery(c, EMPTY, actions, id, None)
            case None => id !in s.ends
            case Some((m, w)) =>
              && m.id == id
              && (id in s.ends && s.ends[id] == f <==> EndsAs(c, m, w, f))
              && (id !in s.ends <==> GoesBack(c, m, w))
              && (id !in s.ends ==> exists n :: n in s.queue && NextCopy(m, n))
              && (0 < c.max < TWO_31 && m.body.Event? && c.hasHandler ==>
                    id in s.budget && (Exhausted(c, m) <==> CountOf(s.handled, id) == s.budget[id]))
  {
    hide Run, LastDelivery, EndsAs, GoesBack, NextCopy, Exhausted;
    EmptyLeaves(c, id);
    RunLeaves(c, EMPTY, actions, id, None);
    var s, d := Run(c, EMPTY, actions), LastDelivery(c, EMPTY, actions, id, None);
    if d.Some? {
      OneRow(c, d.value.0, d.value.1, f, f);
      if id in s.ends { OneRow(c, d.value.0, d.value.1, f, s.ends[id]); OneRow(c, d.value.0, d.value.1, s.ends[id], f); }
    }
  }

  lemma EmptyLeaves(c: Config, id: int)
    ensures Inv(c, EMPTY) && LeftBy(c, EMPTY, id, None)
  {
  }
}
