/** The done-event consumer: bounded retries with a counter carried in the message headers. */
module DoneEvents {
  import opened Basics
  import opened Text

  const TWO_31 := 0x8000_0000
  const TWO_63 := 0x8000_0000_0000_0000

  function Wrap32(n: int): int { (n + TWO_31) % (2 * TWO_31) - TWO_31 }

  function Wrap64(n: int): int64 { (n + TWO_63) % (2 * TWO_63) - TWO_63 }

  // ------------------------------------------------------------- the counter

  /** The forms the retry header can have; Other stands for a value of any further type. */
  datatype Header = Absent | Whole(n: int64) | Float(x: real) | Str(s: string) | Other

  function Digits(s: string, acc: nat): Option<nat>
    decreases |s|
  {
    if s == "" then Some(acc)
    else if '0' <= s[0] <= '9' then Digits(s[1..], acc * 10 + (s[0] as int - '0' as int))
    else None
  }

  /** strconv.Atoi: an optional sign, at least one digit, and a value that fits in 64 bits. */
  function Atoi(s: string): Option<int64> {
    var signed := s != "" && (s[0] == '-' || s[0] == '+');
    var digits := if signed then s[1..] else s;
    if digits == "" then None
    else
      var n := Digits(digits, 0);
      if n.None? then None
      else
        var v: int := if signed && s[0] == '-' then 0 - n.value as int else n.value as int;
        if -TWO_63 <= v < TWO_63 then Some(v) else None
  }

  function RetryCount(h: Header): int64 {
    match h
    case Absent => 0
    case Whole(n) => n
    case Float(x) => if -TWO_63 <= Truncate(x) < TWO_63 then Truncate(x) else -TWO_63
    case Str(s) => if Atoi(GoTrim(s)).Some? then Atoi(GoTrim(s)).value else 0
    case Other => 0
  }

  /** A number in decimal digits. */
  function Decimal(n: nat): string {
    if n < 10 then ['0' + n as char] else Decimal(n / 10) + ['0' + (n % 10) as char]
  }

  lemma {:induction false} DigitsStep(s: string, c: char, acc: nat)
    ensures Digits(s + [c], acc)
         == if Digits(s, acc).Some? && '0' <= c <= '9' then Some(Digits(s, acc).value * 10 + (c as int - '0' as int)) else None
    decreases |s|
  {
    if s == "" {
      assert ("" + [c])[1..] == "";
    } else {
      assert (s + [c])[1..] == s[1..] + [c];
      if '0' <= s[0] <= '9' { DigitsStep(s[1..], c, acc * 10 + (s[0] as int - '0' as int)); }
    }
  }

  lemma {:induction false} DecimalReads(n: nat)
    ensures Digits(Decimal(n), 0) == Some(n) && Decimal(n) != ""
    ensures forall i :: 0 <= i < |Decimal(n)| ==> '0' <= Decimal(n)[i] <= '9'
    decreases n
  {
    if n < 10 {
      assert Decimal(n)[1..] == "";
    } else {
      DecimalReads(n / 10);
      DigitsStep(Decimal(n / 10), '0' + (n % 10) as char, 0);
    }
  }

  lemma SignedAtoi(n: nat, s: string)
    requires s != "" && '0' <= s[0] <= '9' && Digits(s, 0) == Some(n)
    ensures Atoi(s) == Atoi("+" + s) && (Atoi(s).Some? <==> n < TWO_63) && (Atoi(s).Some? ==> Atoi(s).value == n)
    ensures (Atoi("-" + s).Some? <==> n <= TWO_63) && (Atoi("-" + s).Some? ==> Atoi("-" + s).value == 0 - n as int)
  {
    hide Digits;
    assert ("+" + s)[1..] == s && ("-" + s)[1..] == s;
  }

  lemma BareNumber(s: string)
    requires s != "" && forall i :: 0 <= i < |s| ==> '0' <= s[i] <= '9'
    ensures GoTrim(s) == s && GoTrim("+" + s) == "+" + s && GoTrim("-" + s) == "-" + s
  {
    hide TrimLeft, TrimRight;
    TrimFacts(GoSpace, s); TrimFacts(GoSpace, "+" + s); TrimFacts(GoSpace, "-" + s);
  }

  /** A counter given as text counts as its number, with or without a sign, and as 0 outside the range of 64 bits. */
  lemma TextCounts(n: nat)
    ensures RetryCount(Str(Decimal(n))) as int == RetryCount(Str("+" + Decimal(n))) as int == if n < TWO_63 then n else 0
    ensures RetryCount(Str("-" + Decimal(n))) as int == if n <= TWO_63 then 0 - n as int else 0
  {
    hide Digits, Decimal, Atoi, GoTrim;
    DecimalReads(n);
    BareNumber(Decimal(n));
    SignedAtoi(n, Decimal(n));
  }

  /** A counter given as a float counts as its whole part, towards zero. */
  lemma FloatCounts(x: real)
    requires -TWO_63 as real < x < TWO_63 as real
    ensures var n := RetryCount(Float(x)) as int;
            if x >= 0.0 then n as real <= x < (n + 1) as real else (n - 1) as real < x <= n as real
  {
  }

  function NormalizeAttempts(attempts: int): (r: int)
    ensures r > 0 && (attempts > 0 ==> r == attempts) && (attempts <= 0 ==> r == 3)
  {
    if attempts <= 0 then 3 else attempts
  }

  function Next(count: int64): int64 { Wrap64(count + 1) }

  // ---------------------------------------------------------- one delivery

  datatype Body = Garbage | Event

  /** A message on the queue; the id says which published event it carries. */
  datatype Message = Message(id: int, header: Header, body: Body)

  datatype Config = Config(max: int64, hasHandler: bool, hasOnMaxRetry: bool)

  /** What the handler, the timer and the broker answer during one delivery. */
  datatype Weather = Weather(handlerOk: bool, sleepOk: bool, publishOk: bool, finalizeOk: bool, deadLetterOk: bool)

  datatype Fate = Handled | Ignored | Finalised | DeadLettered | Dropped

  /** The end of one delivery: another copy on the queue or a final fate, whether the handler ran, and the acks sent. */
  datatype Verdict = Verdict(again: Option<Message>, fate: Option<Fate>, handled: bool, acks: nat)

  function Parked(w: Weather): Option<Fate> { Some(if w.deadLetterOk then DeadLettered else Dropped) }

  predicate Exhausted(c: Config, m: Message) { Next(RetryCount(m.header)) > c.max }

  function Retried(m: Message): Message {
    m.(header := Whole(Wrap32(Next(RetryCount(m.header)))))
  }

  function Delivered(c: Config, m: Message, w: Weather): Verdict {
    if m.body.Garbage? then Verdict(None, Parked(w), false, 1)
    else if !c.hasHandler then Verdict(None, Some(Ignored), false, 1)
    else if w.handlerOk then Verdict(None, Some(Handled), true, 1)
    else if Exhausted(c, m) then
      if c.hasOnMaxRetry && !w.finalizeOk then Verdict(None, Parked(w), true, 2)
      else Verdict(None, Some(Finalised), true, 1)
    else if w.sleepOk && w.publishOk then Verdict(Some(Retried(m)), None, true, 1)
    else Verdict(None, Parked(w), true, 1)
  }

  // ------------------------------------------------------------- the measure

  /** How often a message can still be handled when its header carries a count written by the consumer. */
  function Fuel32(max: int64, count: int): int { if count >= max then 1 else max + 1 - count }

  /** How often a message can be handled, counting this time. */
  function Fuel(max: int64, m: Message): (f: int)
    ensures f >= 1
  {
    var next := Next(RetryCount(m.header));
    if next > max then 1 else 1 + Fuel32(max, Wrap32(next))
  }

  lemma WrapFacts(n: int)
    ensures -TWO_31 <= Wrap32(n) < TWO_31
    ensures -TWO_31 <= n < TWO_31 ==> Wrap32(n) == n
    ensures -TWO_63 <= n < TWO_63 ==> Wrap64(n) == n
  {
  }

  /** A retry uses up exactly one of the handlings that are left, whatever its header was. */
  lemma RetrySpendsFuel(c: Config, m: Message)
    requires 0 < c.max < TWO_31 && !Exhausted(c, m)
    ensures Fuel(c.max, Retried(m)) == Fuel(c.max, m) - 1
  {
    var next := Next(RetryCount(m.header));
    WrapFacts(next);
    var d := Wrap32(next);
    WrapFacts(d + 1);
  }

  /** A message without a header has the configured number of attempts and one more. */
  lemma FreshFuel(max: int64, id: int, body: Body)
    requires 0 < max < TWO_31
    ensures Fuel(max, Message(id, Absent, body)) == max + 1
  {
  }

  // -------------------------------------------------------- the table of fates

  /** The attempt after which the consumer gives up fails with its handler. */
  predicate LastFails(c: Config, m: Message, w: Weather) { FailsHandler(c, m, w) && Exhausted(c, m) }

  predicate FailsHandler(c: Config, m: Message, w: Weather) { m.body.Event? && c.hasHandler && !w.handlerOk }

  /** Not readable, not put back in time, or not finalised. */
  predicate Stuck(c: Config, m: Message, w: Weather) {
    || m.body.Garbage?
    || (FailsHandler(c, m, w) && !Exhausted(c, m) && !(w.sleepOk && w.publishOk))
    || (LastFails(c, m, w) && c.hasOnMaxRetry && !w.finalizeOk)
  }

  /** The delivery on which an event can end in this way. */
  predicate EndsAs(c: Config, m: Message, w: Weather, f: Fate) {
    match f
    case Handled => m.body.Event? && c.hasHandler && w.handlerOk
    case Ignored => m.body.Event? && !c.hasHandler
    case Finalised => LastFails(c, m, w) && (c.hasOnMaxRetry ==> w.finalizeOk)
    case DeadLettered => Stuck(c, m, w) && w.deadLetterOk
    case Dropped => Stuck(c, m, w) && !w.deadLetterOk
  }

  predicate GoesBack(c: Config, m: Message, w: Weather) {
    FailsHandler(c, m, w) && !Exhausted(c, m) && w.sleepOk && w.publishOk
  }

  /** The copy put back: the same event, counted once more. */
  predicate NextCopy(m: Message, n: Message) {
    && n.id == m.id && n.body == m.body && n.header.Whole?
    && (-TWO_31 <= RetryCount(m.header) < TWO_31 - 1 ==> n.header.n == RetryCount(m.header) + 1)
  }

  /** The table has exactly one row for every delivery. */
  lemma OneRow(c: Config, m: Message, w: Weather, f: Fate, g: Fate)
    ensures EndsAs(c, m, w, f) ==> !GoesBack(c, m, w) && (EndsAs(c, m, w, g) ==> f == g)
    ensures !GoesBack(c, m, w) ==> exists h :: EndsAs(c, m, w, h)
  {
    hide Exhausted;
    if !GoesBack(c, m, w) {
      var h := if m.body.Garbage? then (if w.deadLetterOk then DeadLettered else Dropped)
               else if !c.hasHandler then Ignored else if w.handlerOk then Handled
               else if Exhausted(c, m) && (c.hasOnMaxRetry ==> w.finalizeOk) then Finalised
               else if w.deadLetterOk then DeadLettered else Dropped;
      assert EndsAs(c, m, w, h);
    }
  }

  lemma DeliveredByTable(c: Config, m: Message, w: Weather)
    ensures var v := Delivered(c, m, w);
            && (v.again.Some? <==> GoesBack(c, m, w)) && (v.fate.Some? <==> !GoesBack(c, m, w))
            && (v.again.Some? ==> NextCopy(m, v.again.value))
            && (v.fate.Some? ==> EndsAs(c, m, w, v.fate.value))
            && (v.handled <==> m.body.Event? && c.hasHandler)
  {
    hide Exhausted;
    CountsOn(m);
  }

  lemma CountsOn(m: Message)
    ensures NextCopy(m, Retried(m))
  {
    WrapFacts(RetryCount(m.header) + 1);
  }

  // ------------------------------------------------------------------ runs

  /** The queue, and for every published event its handlings, its end, and the handlings its first header allows. */
  datatype State = State(queue: seq<Message>, handled: map<int, nat>, ends: map<int, Fate>, budget: map<int, int>)

  datatype Action =
    | Publish(m: Message)
    | Take(i: nat, w: Weather)

  const EMPTY := State([], map[], map[], map[])

  function Published(c: Config, s: State, m: Message): State {
    State(s.queue + [m], s.handled[m.id := 0], s.ends, s.budget[m.id := Fuel(c.max, m)])
  }

  function CountOf(m: map<int, nat>, id: int): nat { if id in m then m[id] else 0 }

  /** Delivering the i-th waiting message to its end, with its acknowledgement. */
  function Taken(c: Config, s: State, i: nat, w: Weather): State
    requires i < |s.queue|
  {
    var m := s.queue[i];
    var v := Delivered(c, m, w);
    var rest := s.queue[..i] + s.queue[i + 1..];
    State(if v.again.Some? then rest + [v.again.value] else rest,
          s.handled[m.id := CountOf(s.handled, m.id) + if v.handled then 1 else 0],
          if v.fate.Some? then s.ends[m.id := v.fate.value] else s.ends,
          s.budget)
  }

  function Step(c: Config, s: State, a: Action): State {
    match a
    case Publish(m) => if m.id in s.budget then s else Published(c, s, m)
    case Take(i, w) => if i < |s.queue| then Taken(c, s, i, w) else s
  }

  function Run(c: Config, s: State, actions: seq<Action>): State
    decreases |actions|
  {
    if actions == [] then s else Run(c, Step(c, s, actions[0]), actions[1..])
  }

  /** The limit is positive, as NormalizeAttempts makes it, and fits the counter. */
  predicate Fits(c: Config) { 0 < c.max < TWO_31 }

  predicate Waiting(s: State, id: int) { exists i :: 0 <= i < |s.queue| && s.queue[i].id == id }

  predicate CopyOk(c: Config, s: State, i: nat)
    requires i < |s.queue|
  {
    var m := s.queue[i];
    && m.id in s.budget && m.id !in s.ends
    && (Fits(c) ==> CountOf(s.handled, m.id) + Fuel(c.max, m) == s.budget[m.id])
  }

  predicate EventOk(c: Config, s: State, id: int) {
    && (id in s.budget <==> Waiting(s, id) || id in s.ends)
    && (Fits(c) && id in s.ends && id in s.budget ==>
          CountOf(s.handled, id) <= s.budget[id] && (s.ends[id].Finalised? ==> CountOf(s.handled, id) == s.budget[id]))
  }

  ghost predicate Inv(c: Config, s: State) {
    && (forall i :: 0 <= i < |s.queue| ==> CopyOk(c, s, i))
    && (forall i, j :: 0 <= i < j < |s.queue| ==> s.queue[i].id != s.queue[j].id)
    && (forall id :: EventOk(c, s, id))
  }

  lemma PublishInv(c: Config, s: State, m: Message)
    requires Inv(c, s) && m.id !in s.budget
    ensures Inv(c, Published(c, s, m))
  {
    hide Fuel;
    var t := Published(c, s, m);
    assert EventOk(c, s, m.id);
    forall i | 0 <= i < |t.queue| ensures CopyOk(c, t, i) { if i < |s.queue| { assert CopyOk(c, s, i); } }
    forall i, j | 0 <= i < j < |t.queue| ensures t.queue[i].id != t.queue[j].id { assert CopyOk(c, s, i); }
    forall id ensures EventOk(c, t, id) { assert EventOk(c, s, id); PublishWaiting(c, s, m, id); }
  }

  lemma PublishWaiting(c: Config, s: State, m: Message, id: int)
    ensures Waiting(Published(c, s, m), id) <==> Waiting(s, id) || id == m.id
  {
    var t := Published(c, s, m);
    assert t.queue[|s.queue|] == m;
    assert forall i :: 0 <= i < |s.queue| ==> t.queue[i] == s.queue[i];
  }

  /** What one delivery does to the handlings and the fuel of its event. */
  lemma DeliverySpends(c: Config, m: Message, w: Weather)
    ensures var v := Delivered(c, m, w);
            && (v.again.Some? ==> v.handled && v.again.value.id == m.id)
            && (Fits(c) && v.again.Some? ==> Fuel(c.max, v.again.value) == Fuel(c.max, m) - 1)
            && (v.fate == Some(Finalised) ==> v.handled && Fuel(c.max, m) == 1)
            && (v.again.Some? <==> v.fate.None?)
  {
    hide Next;
    if Fits(c) && Delivered(c, m, w).again.Some? {
      RetrySpendsFuel(c, m);
    }
  }

  /** The queue after the i-th message is taken out: who is in it. */
  lemma WithoutOne(q: seq<Message>, i: nat)
    requires i < |q| && forall a, b :: 0 <= a < b < |q| ==> q[a].id != q[b].id
    ensures var rest := q[..i] + q[i + 1..];
            && |rest| == |q| - 1
            && (forall k :: 0 <= k < |rest| ==> rest[k] == q[if k < i then k else k + 1] && rest[k].id != q[i].id)
            && (forall a, b :: 0 <= a < b < |rest| ==> rest[a].id != rest[b].id)
  {
  }

  lemma TakeInv(c: Config, s: State, i: nat, w: Weather)
    requires Inv(c, s) && i < |s.queue|
    ensures Inv(c, Taken(c, s, i, w))
  {
    hide Fuel, Delivered;
    var m, t := s.queue[i], Taken(c, s, i, w);
    var rest := s.queue[..i] + s.queue[i + 1..];
    assert CopyOk(c, s, i);
    DeliverySpends(c, m, w);
    WithoutOne(s.queue, i);
    forall k | 0 <= k < |t.queue| ensures CopyOk(c, t, k) {
      if k < |rest| { assert CopyOk(c, s, if k < i then k else k + 1); }
    }
    forall a, b | 0 <= a < b < |t.queue| ensures t.queue[a].id != t.queue[b].id {
      assert a < |rest|;
    }
    forall id ensures EventOk(c, t, id) { assert EventOk(c, s, id); TakeWaiting(c, s, i, w, id); }
  }

  lemma TakeWaiting(c: Config, s: State, i: nat, w: Weather, id: int)
    requires i < |s.queue| && forall a, b :: 0 <= a < b < |s.queue| ==> s.queue[a].id != s.queue[b].id
    requires var v := Delivered(c, s.queue[i], w); v.again.Some? ==> v.again.value.id == s.queue[i].id
    ensures Waiting(Taken(c, s, i, w), id)
       <==> if id == s.queue[i].id then Delivered(c, s.queue[i], w).again.Some? else Waiting(s, id)
  {
    hide Delivered;
    var t := Taken(c, s, i, w);
    var rest := s.queue[..i] + s.queue[i + 1..];
    WithoutOne(s.queue, i);
    assert forall k :: 0 <= k < |rest| ==> t.queue[k] == rest[k];
    if k :| 0 <= k < |s.queue| && k != i && s.queue[k].id == id {
      assert rest[if k < i then k else k - 1] == s.queue[k];
      assert t.queue[if k < i then k else k - 1].id == id;
    }
    if k :| 0 <= k < |rest| && rest[k].id == id {
      assert s.queue[if k < i then k else k + 1].id == id;
    }
    if Delivered(c, s.queue[i], w).again.Some? {
      assert t.queue[|rest|].id == s.queue[i].id;
    }
    assert s.queue[i].id == s.queue[i].id;
  }

  lemma {:induction false} RunInv(c: Config, s: State, actions: seq<Action>)
    requires Inv(c, s)
    ensures Inv(c, Run(c, s, actions))
    decreases |actions|
  {
    hide Inv, Published, Taken;
    if actions != [] {
      match actions[0] {
        case Publish(m) => if m.id !in s.budget { PublishInv(c, s, m); }
        case Take(i, w) => if i < |s.queue| { TakeInv(c, s, i, w); }
      }
      RunInv(c, Step(c, s, actions[0]), actions[1..]);
    }
  }

  /**
   * On every run, whatever the limit, a published event has one waiting copy and no end, or one end and no waiting
   * copy. With a limit that fits the counter it was handled no more often than its first header allows, and is given
   * up only when all those handlings are used.
   */
  lemma {:induction false} OneCopyOrOneEnd(c: Config, actions: seq<Action>, id: int)
    ensures var s := Run(c, EMPTY, actions);
            && (id in s.budget ==> (Waiting(s, id) <==> id !in s.ends))
            && (forall i, j :: 0 <= i < |s.queue| && 0 <= j < |s.queue| && s.queue[i].id == s.queue[j].id ==> i == j)
            && (0 < c.max < TWO_31 && id in s.budget ==> CountOf(s.handled, id) <= s.budget[id])
            && (0 < c.max < TWO_31 && id in s.budget && id in s.ends && s.ends[id].Finalised? ==> CountOf(s.handled, id) == s.budget[id])
  {
    hide Run, Fuel;
    RunInv(c, EMPTY, actions);
    var s := Run(c, EMPTY, actions);
    assert EventOk(c, s, id);
    if i :| 0 <= i < |s.queue| && s.queue[i].id == id {
      assert CopyOk(c, s, i);
    }
    forall i, j | 0 <= i < |s.queue| && 0 <= j < |s.queue| && s.queue[i].id == s.queue[j].id ensures i == j {
      assert !(i < j) && !(j < i);
    }
  }

  lemma {:induction false} BudgetKept(c: Config, s: State, actions: seq<Action>, id: int)
    requires id in s.budget
    ensures id in Run(c, s, actions).budget && Run(c, s, actions).budget[id] == s.budget[id]
    decreases |actions|
  {
    hide Fuel, Delivered;
    if actions != [] {
      BudgetKept(c, Step(c, s, actions[0]), actions[1..], id);
    }
  }

  lemma {:induction false} FirstBudget(c: Config, s: State, m: Message, actions: seq<Action>)
    requires m.id !in s.budget
    ensures var t := Run(c, s, [Publish(m)] + actions);
            m.id in t.budget && t.budget[m.id] == Fuel(c.max, m)
  {
    hide Fuel, Step;
    assert ([Publish(m)] + actions)[1..] == actions;
    PublishBudget(c, s, m);
    BudgetKept(c, Published(c, s, m), actions, m.id);
  }

  lemma PublishBudget(c: Config, s: State, m: Message)
    requires m.id !in s.budget
    ensures Step(c, s, Publish(m)) == Published(c, s, m) && Published(c, s, m).budget[m.id] == Fuel(c.max, m)
  {
  }

  /** An event published without a counter is handled at most retryMaxAttempts + 1 times, and that often before it is given up. */
  lemma HandledAtMost(c: Config, before: seq<Action>, m: Message, after: seq<Action>)
    requires 0 < c.max < TWO_31 && m.header.Absent? && m.id !in Run(c, EMPTY, before).budget
    ensures var s := Run(c, Run(c, EMPTY, before), [Publish(m)] + after);
            && CountOf(s.handled, m.id) <= c.max + 1
            && (m.id in s.ends && s.ends[m.id].Finalised? ==> CountOf(s.handled, m.id) == c.max + 1)
            && (Waiting(s, m.id) <==> m.id !in s.ends)
  {
    hide Run, Fuel, Waiting;
    RunAppends(c, EMPTY, before, [Publish(m)] + after);
    FirstBudget(c, Run(c, EMPTY, before), m, after);
    FreshFuel(c.max, m.id, m.body);
    OneCopyOrOneEnd(c, before + ([Publish(m)] + after), m.id);
  }

  lemma {:induction false} RunAppends(c: Config, s: State, a: seq<Action>, b: seq<Action>)
    ensures Run(c, s, a + b) == Run(c, Run(c, s, a), b)
    decreases |a|
  {
    hide Step;
    if a == [] {
      assert a + b == b;
    } else {
      assert (a + b)[1..] == a[1..] + b;
      RunAppends(c, Step(c, s, a[0]), a[1..], b);
    }
  }

  // ---------------------------------------------------------------- the loop

  function PutBack(v: Verdict): seq<Message> { if v.again.Some? then [v.again.value] else [] }

  function Ended(m: Message, v: Verdict): seq<(int, Fate)> { if v.fate.Some? then [(m.id, v.fate.value)] else [] }

  /** The consumer's loop: each delivery in turn is the message at the head of the queue. */
  function Consumed(c: Config, queue: seq<Message>, weather: seq<Weather>): seq<Message>
    decreases |weather|
  {
    if weather == [] || queue == [] then queue
    else
      var v := Delivered(c, queue[0], weather[0]);
      Consumed(c, queue[1..] + PutBack(v), weather[1..])
  }

  /** The loop's ends, in order, with the ids of their events. */
  function EndsOf(c: Config, queue: seq<Message>, weather: seq<Weather>): seq<(int, Fate)>
    decreases |weather|
  {
    if weather == [] || queue == [] then []
    else
      var v := Delivered(c, queue[0], weather[0]);
      Ended(queue[0], v) + EndsOf(c, queue[1..] + PutBack(v), weather[1..])
  }

  /** The loop's acknowledgements, and its deliveries. */
  function AcksOf(c: Config, queue: seq<Message>, weather: seq<Weather>): (r: (nat, nat))
    decreases |weather|
  {
    if weather == [] || queue == [] then (0, 0)
    else
      var v := Delivered(c, queue[0], weather[0]);
      var r := AcksOf(c, queue[1..] + PutBack(v), weather[1..]);
      (v.acks + r.0, 1 + r.1)
  }

  /** The last attempt fails, and the finaliser too. */
  predicate FinaliserFails(c: Config, m: Message, w: Weather) {
    m.body.Event? && c.hasHandler && !w.handlerOk && Exhausted(c, m) && c.hasOnMaxRetry && !w.finalizeOk
  }

  /** The loop's deliveries on which the finaliser fails. */
  function FailuresOf(c: Config, queue: seq<Message>, weather: seq<Weather>): nat
    decreases |weather|
  {
    if weather == [] || queue == [] then 0
    else
      var v := Delivered(c, queue[0], weather[0]);
      (if FinaliserFails(c, queue[0], weather[0]) then 1 else 0)
      + FailuresOf(c, queue[1..] + PutBack(v), weather[1..])
  }

  /** The loop acknowledges each delivery once, and once more for every finaliser that fails. */
  lemma {:induction false} AcksOfLoop(c: Config, queue: seq<Message>, weather: seq<Weather>)
    ensures AcksOf(c, queue, weather).0 == AcksOf(c, queue, weather).1 + FailuresOf(c, queue, weather)
    decreases |weather|
  {
    hide Exhausted, Retried;
    if weather != [] && queue != [] {
      var v := Delivered(c, queue[0], weather[0]);
      AcksOfLoop(c, queue[1..] + PutBack(v), weather[1..]);
    }
  }

  function Ids(queue: seq<Message>): multiset<int>
    decreases |queue|
  {
    if queue == [] then multiset{} else multiset{queue[0].id} + Ids(queue[1..])
  }

  function EndIds(ends: seq<(int, Fate)>): multiset<int>
    decreases |ends|
  {
    if ends == [] then multiset{} else multiset{ends[0].0} + EndIds(ends[1..])
  }

  lemma {:induction false} IdsAppend(a: seq<Message>, b: seq<Message>)
    ensures Ids(a + b) == Ids(a) + Ids(b)
    decreases |a|
  {
    if a == [] {
      assert a + b == b;
    } else {
      assert (a + b)[1..] == a[1..] + b;
      IdsAppend(a[1..], b);
    }
  }

  lemma {:induction false} EndIdsAppend(a: seq<(int, Fate)>, b: seq<(int, Fate)>)
    ensures EndIds(a + b) == EndIds(a) + EndIds(b)
    decreases |a|
  {
    if a == [] {
      assert a + b == b;
    } else {
      assert (a + b)[1..] == a[1..] + b;
      EndIdsAppend(a[1..], b);
    }
  }

  /** A delivery puts its message back or ends it, not both. */
  lemma TurnConserves(c: Config, m: Message, w: Weather)
    ensures var v := Delivered(c, m, w); Ids(PutBack(v)) + EndIds(Ended(m, v)) == multiset{m.id} == Ids([m])
  {
    hide Delivered, Ids, EndIds;
    var v := Delivered(c, m, w);
    BackOrOver(c, m, w);
    OneId(m);
    NoEnds();
    if v.again.Some? { OneId(v.again.value); } else { OneEnd(m.id, v.fate.value); }
  }

  lemma BackOrOver(c: Config, m: Message, w: Weather)
    ensures var v := Delivered(c, m, w); (v.again.Some? <==> v.fate.None?) && (v.again.Some? ==> v.again.value.id == m.id)
  {
    hide Exhausted, RetryCount, Next, Wrap32;
  }

  lemma OneId(m: Message)
    ensures Ids([m]) == multiset{m.id}
  {
    assert [m][1..] == [];
  }

  lemma OneEnd(id: int, f: Fate)
    ensures EndIds([(id, f)]) == multiset{id}
  {
    assert [(id, f)][1..] == [];
  }

  /** However a loop goes, every message it started with is still waiting or has ended, once. */
  lemma {:induction false} LoopConserves(c: Config, queue: seq<Message>, weather: seq<Weather>)
    ensures Ids(Consumed(c, queue, weather)) + EndIds(EndsOf(c, queue, weather)) == Ids(queue)
    decreases |weather|
  {
    hide Delivered, Ids, EndIds, PutBack, Ended;
    if weather == [] || queue == [] {
      NoEnds();
    } else {
      var m := queue[0];
      var v := Delivered(c, m, weather[0]);
      LoopConserves(c, queue[1..] + PutBack(v), weather[1..]);
      IdsAppend(queue[1..], PutBack(v));
      assert queue == [m] + queue[1..];
      IdsAppend([m], queue[1..]);
      TurnConserves(c, m, weather[0]);
      EndIdsAppend(Ended(m, v), EndsOf(c, queue[1..] + PutBack(v), weather[1..]));
    }
  }

  lemma NoEnds()
    ensures EndIds([]) == multiset{} && Ids([]) == multiset{}
  {
  }

  function FuelOf(max: int64, queue: seq<Message>): (f: nat)
    decreases |queue|
  {
    if queue == [] then 0 else Fuel(max, queue[0]) + FuelOf(max, queue[1..])
  }

  lemma {:induction false} FuelAppend(max: int64, queue: seq<Message>, m: Message)
    ensures FuelOf(max, queue + [m]) == FuelOf(max, queue) + Fuel(max, m)
    decreases |queue|
  {
    hide Fuel;
    if queue == [] {
      assert [m][1..] == [] && queue + [m] == [m];
    } else {
      assert (queue + [m])[1..] == queue[1..] + [m];
      FuelAppend(max, queue[1..], m);
    }
  }

  /** However the handler and the broker behave, as many deliveries as the queue has fuel drain it. */
  lemma {:induction false} LoopDrains(c: Config, queue: seq<Message>, weather: seq<Weather>)
    requires 0 < c.max < TWO_31 && |weather| >= FuelOf(c.max, queue)
    ensures Consumed(c, queue, weather) == []
    decreases |weather|
  {
    hide Fuel, Delivered;
    if weather != [] && queue != [] {
      var v := Delivered(c, queue[0], weather[0]);
      DeliverySpends(c, queue[0], weather[0]);
      if v.again.Some? {
        FuelAppend(c.max, queue[1..], v.again.value);
        LoopDrains(c, queue[1..] + [v.again.value], weather[1..]);
      } else {
        assert queue[1..] + [] == queue[1..];
        LoopDrains(c, queue[1..], weather[1..]);
      }
    }
  }

  const STORM := Weather(false, true, true, true, true)

  /** A limit the 32-bit header cannot count to is never reached: the event is handled again and again. */
  lemma {:induction false} WideLimitNeverEnds(c: Config, m: Message, n: nat)
    requires c.max >= TWO_31 && c.hasHandler && m.body.Event? && -TWO_31 <= RetryCount(m.header) < TWO_31
    ensures |Consumed(c, [m], seq(n, i => STORM))| == 1
    decreases n
  {
    if n > 0 {
      var ws := seq(n, i => STORM);
      var r := Retried(m);
      assert ws[0] == STORM && ws[1..] == seq(n - 1, i => STORM);
      WrapFacts(Next(RetryCount(m.header)));
      assert Delivered(c, m, STORM).again == Some(r);
      assert [m][1..] + [r] == [r];
      WideLimitNeverEnds(c, r, n - 1);
    }
  }

  /** Some number of deliveries that always empties the queue. */
  ghost predicate Bounded(c: Config, queue: seq<Message>) {
    exists n: nat :: EmptiedBy(c, queue, n)
  }

  ghost predicate EmptiedBy(c: Config, queue: seq<Message>, n: nat) {
    forall weather: seq<Weather> :: |weather| >= n ==> Consumed(c, queue, weather) == []
  }

  /** Retries are bounded exactly when the limit fits the 32-bit header. */
  lemma RetriesAreBoundedIff(c: Config, id: int)
    requires c.max > 0 && c.hasHandler
    ensures Bounded(c, [Message(id, Absent, Event)]) <==> c.max < TWO_31
  {
    hide Consumed, Fuel;
    var queue := [Message(id, Absent, Event)];
    if c.max < TWO_31 {
      var n := FuelOf(c.max, queue);
      forall weather: seq<Weather> | |weather| >= n ensures Consumed(c, queue, weather) == [] {
        LoopDrains(c, queue, weather);
      }
      assert EmptiedBy(c, queue, n);
    } else {
      forall n: nat ensures !EmptiedBy(c, queue, n) {
        WideLimitNeverEnds(c, queue[0], n);
        assert |seq(n, i => STORM)| == n;
      }
    }
  }

  /** The loop's deliveries, in order, are the turns; `ends` has one end for each that does not go back, by the table. */
  ghost predicate LoopKeeps(c: Config, queue: seq<Message>, weather: seq<Weather>, ends: seq<(int, Fate)>, rest: seq<Message>)
    decreases |weather|
  {
    if weather == [] || queue == [] then ends == [] && rest == queue
    else
      var m, w := queue[0], weather[0];
      if GoesBack(c, m, w) then exists n :: NextCopy(m, n) && LoopKeeps(c, queue[1..] + [n], weather[1..], ends, rest)
      else ends != [] && ends[0].0 == m.id && EndsAs(c, m, w, ends[0].1) && LoopKeeps(c, queue[1..], weather[1..], ends[1..], rest)
  }

  /** Each turn of the loop ends its message as the table says, or puts the next copy back. */
  lemma {:induction false} LoopFates(c: Config, queue: seq<Message>, weather: seq<Weather>)
    ensures LoopKeeps(c, queue, weather, EndsOf(c, queue, weather), Consumed(c, queue, weather))
    decreases |weather|
  {
    hide Delivered, EndsAs, GoesBack, NextCopy;
    if weather != [] && queue != [] {
      var m, w := queue[0], weather[0];
      var v := Delivered(c, m, w);
      DeliveredByTable(c, m, w);
      var later := EndsOf(c, queue[1..] + PutBack(v), weather[1..]);
      LoopFates(c, queue[1..] + PutBack(v), weather[1..]);
      if v.again.Some? {
        assert Ended(m, v) + later == later;
      } else {
        assert queue[1..] + PutBack(v) == queue[1..];
        assert (Ended(m, v) + later)[1..] == later;
      }
    }
  }

  class DoneEventConsumer {
    const config: Config
    var queue: seq<Message>
    var acks: nat
    ghost var ends: seq<(int, Fate)>

    constructor (attempts: int, hasHandler: bool, hasOnMaxRetry: bool)
      requires attempts < TWO_63
      ensures config.max == NormalizeAttempts(attempts) && queue == [] && acks == 0 && ends == []
      ensures config.hasHandler == hasHandler && config.hasOnMaxRetry == hasOnMaxRetry
    {
      config := Config(NormalizeAttempts(attempts), hasHandler, hasOnMaxRetry);
      queue, acks, ends := [], 0, [];
    }

    method Ack()
      modifies this`acks
      ensures acks == old(acks) + 1
    {
      acks := acks + 1;
    }

    ghost method End(m: Message, f: Fate)
      modifies this`ends
      ensures ends == old(ends) + [(m.id, f)]
    {
      ends := ends + [(m.id, f)];
    }

    /** Answers whether it failed; the handler has just failed. */
    method RetryOrFinalize(m: Message, w: Weather) returns (failed: bool)
      requires m.body.Event? && config.hasHandler && !w.handlerOk
      modifies this
      ensures var v := Delivered(config, m, w);
              && failed == (v.fate == Parked(w))
              && queue == old(queue) + (if v.again.Some? then [v.again.value] else [])
              && ends == old(ends) + (if v.fate == Some(Finalised) then [(m.id, Finalised)] else [])
              && acks == old(acks) + (if failed then v.acks - 1 else v.acks)
    {
      var next := Wrap64(RetryCount(m.header) + 1);
      if next > config.max {
        Ack();
        if config.hasOnMaxRetry && !w.finalizeOk {
          return true;
        }
        End(m, Finalised);
        return false;
      }
      if !w.sleepOk { return true; }
      if !w.publishOk { return true; }
      queue := queue + [m.(header := Whole(Wrap32(next)))];
      Ack();
      return false;
    }

    /** One turn of the loop of Start. */
    method Deliver(w: Weather)
      requires queue != []
      modifies this
      ensures var m := old(queue)[0];
              var v := Delivered(config, m, w);
              && queue == old(queue)[1..] + PutBack(v)
              && ends == old(ends) + Ended(m, v)
              && acks == old(acks) + v.acks
      ensures var m := old(queue)[0];
              if GoesBack(config, m, w) then ends == old(ends) && exists n :: NextCopy(m, n) && queue == old(queue)[1..] + [n]
              else queue == old(queue)[1..] && exists f :: EndsAs(config, m, w, f) && ends == old(ends) + [(m.id, f)]
    {
      hide Next, RetryCount, Wrap32, EndsAs, GoesBack, NextCopy;
      var m := queue[0];
      DeliveredByTable(config, m, w);
      queue := queue[1..];
      if m.body.Garbage? {
        End(m, if w.deadLetterOk then DeadLettered else Dropped);
        Ack();
        return;
      }
      if !config.hasHandler {
        End(m, Ignored);
        Ack();
        return;
      }
      if !w.handlerOk {
        var failed := RetryOrFinalize(m, w);
        if failed {
          End(m, if w.deadLetterOk then DeadLettered else Dropped);
          Ack();
        }
        return;
      }
      End(m, Handled);
      Ack();
    }

    method Start(weather: seq<Weather>)
      modifies this
      ensures queue == Consumed(config, old(queue), weather)
      ensures ends == old(ends) + EndsOf(config, old(queue), weather)
      ensures acks == old(acks) + AcksOf(config, old(queue), weather).0
      ensures old(ends) <= ends && LoopKeeps(config, old(queue), weather, ends[|old(ends)|..], queue)
    {
      LoopFates(config, queue, weather);
      hide LoopKeeps, Delivered, Consumed, EndsOf, AcksOf, PutBack, Ended;
      assert weather[0..] == weather;
      for i := 0 to |weather|
        invariant Consumed(config, queue, weather[i..]) == Consumed(config, old(queue), weather)
        invariant ends + EndsOf(config, queue, weather[i..]) == old(ends) + EndsOf(config, old(queue), weather)
        invariant acks + AcksOf(config, queue, weather[i..]).0 == old(acks) + AcksOf(config, old(queue), weather).0
      {
        if queue == [] {
          LoopEnds(config, queue, weather[i..]);
          return;
        }
        assert weather[i..][0] == weather[i] && weather[i..][1..] == weather[i + 1..];
        LoopTurns(config, queue, weather[i..]);
        Deliver(weather[i]);
      }
      LoopEnds(config, queue, weather[|weather|..]);
    }
  }

  lemma LoopEnds(c: Config, queue: seq<Message>, weather: seq<Weather>)
    requires queue == [] || weather == []
    ensures Consumed(c, queue, weather) == queue && EndsOf(c, queue, weather) == [] && AcksOf(c, queue, weather).0 == 0
  {
  }

  lemma LoopTurns(c: Config, queue: seq<Message>, weather: seq<Weather>)
    requires queue != [] && weather != []
    ensures var v := Delivered(c, queue[0], weather[0]);
            var next := queue[1..] + PutBack(v);
            && Consumed(c, queue, weather) == Consumed(c, next, weather[1..])
            && EndsOf(c, queue, weather) == Ended(queue[0], v) + EndsOf(c, next, weather[1..])
            && AcksOf(c, queue, weather).0 == v.acks + AcksOf(c, next, weather[1..]).0
  {
  }
}
