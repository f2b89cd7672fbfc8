/** The log of a room: sequence ids taken by optimistic transactions, and references to earlier messages. */
module RoomLog {
  import opened Basics
  import opened Text

  datatype Row = Row(id: string, room: string, sender: string, content: string,
                     parentId: Option<string>, parentSeq: Option<int>, number: int)

  datatype Request = Request(room: string, sender: string, content: string, parentId: string, parentSeq: Option<int>)

  /** What a reference resolves to. */
  datatype Parent = Refused | Root | Reply(id: string, number: int)

  const MAX_RETRIES := 3

  // -------------------------------------------------------------- the reads

  function FindById(rows: seq<Row>, id: string): (r: Option<Row>)
    ensures r.Some? ==> r.value in rows && r.value.id == id
    ensures r.None? ==> forall p :: p in rows ==> p.id != id
  {
    if rows == [] then None
    else if rows[0].id == id then Some(rows[0])
    else FindById(rows[1..], id)
  }

  function FindBySeq(rows: seq<Row>, room: string, number: int): (r: Option<Row>)
    ensures r.Some? ==> r.value in rows && r.value.room == room && r.value.number == number
    ensures r.None? ==> forall p :: p in rows ==> !(p.room == room && p.number == number)
  {
    if rows == [] then None
    else if rows[0].room == room && rows[0].number == number then Some(rows[0])
    else FindBySeq(rows[1..], room, number)
  }

  /** The largest sequence id of a room, or 0 when the room has no message. */
  function LastSeq(rows: seq<Row>, room: string): int
    decreases |rows|
  {
    if rows == [] then 0
    else
      var r, last := rows[|rows| - 1], LastSeq(rows[..|rows| - 1], room);
      if r.room == room && r.number > last then r.number else last
  }

  function Resolve(rows: seq<Row>, q: Request): Parent {
    var id := GoTrim(q.parentId);
    var hasSeq := q.parentSeq.Some? && q.parentSeq.value > 0;
    if id == "" && !hasSeq then Root
    else
      var found := if id != "" then FindById(rows, id) else FindBySeq(rows, q.room, q.parentSeq.value);
      if found.None? then Refused
      else if GoTrim(found.value.room) != GoTrim(q.room) then Refused
      else if hasSeq && found.value.number != q.parentSeq.value then Refused
      else Reply(GoTrim(found.value.id), found.value.number)
  }

  /** The row a transaction prepares from what it reads, or nothing when its reference is refused. */
  function Prepare(rows: seq<Row>, q: Request, id: string): Option<Row> {
    match Resolve(rows, q)
    case Refused => None
    case Root => Some(Row(id, q.room, q.sender, q.content, None, None, LastSeq(rows, q.room) + 1))
    case Reply(p, n) => Some(Row(id, q.room, q.sender, q.content, Some(p), Some(n), LastSeq(rows, q.room) + 1))
  }

  /** The primary key or the unique index of room and sequence already has the row's value. */
  predicate Taken(rows: seq<Row>, row: Row) {
    exists r :: r in rows && (r.id == row.id || (r.room == row.room && r.number == row.number))
  }

  /** The insert keeps to the foreign key on the room and to the two unique indexes. */
  predicate Admitted(rooms: set<string>, rows: seq<Row>, row: Row) { row.room in rooms && !Taken(rows, row) }

  /** What the database does with an insert: it commits, commits but answers an error, or fails. */
  datatype Outcome = Applied | AppliedError | Lost

  function Inserted(rooms: set<string>, rows: seq<Row>, row: Row, o: Outcome): seq<Row> {
    if !Admitted(rooms, rows, row) || o.Lost? then rows else rows + [row]
  }

  predicate Reported(rooms: set<string>, rows: seq<Row>, row: Row, o: Outcome) { Admitted(rooms, rows, row) && o.Applied? }

  // --------------------------------------------------------------- log shape

  /** The rows of a room, in the order they were inserted. */
  function RoomRows(rows: seq<Row>, room: string): seq<Row>
    decreases |rows|
  {
    if rows == [] then []
    else RoomRows(rows[..|rows| - 1], room) + if rows[|rows| - 1].room == room then [rows[|rows| - 1]] else []
  }

  ghost predicate SeqOk(rows: seq<Row>, room: string) {
    forall i :: 0 <= i < |RoomRows(rows, room)| ==> RoomRows(rows, room)[i].number == i + 1
  }

  ghost predicate Names(rows: seq<Row>, r: Row, p: Row) {
    && p in rows && r.parentId == Some(p.id) && r.parentSeq == Some(p.number)
    && GoTrim(p.room) == GoTrim(r.room) && (p.room == r.room ==> p.number < r.number)
  }

  /** A row refers to nothing, or its two references name one stored row, an earlier one of the room. */
  ghost predicate ParentOk(rows: seq<Row>, r: Row) {
    (r.parentId.None? && r.parentSeq.None?) || exists p :: Names(rows, r, p)
  }

  predicate GivesId(q: Request) { GoTrim(q.parentId) != "" }

  predicate GivesSeq(q: Request) { q.parentSeq.Some? && q.parentSeq.value > 0 }

  /** The message that the request replies to: the one of that id in its room, or else of that number; both when it gives both. */
  predicate RefersTo(q: Request, p: Row) {
    && (if GivesId(q) then p.id == GoTrim(q.parentId) && GoTrim(p.room) == GoTrim(q.room) else GivesSeq(q) && p.room == q.room)
    && (GivesSeq(q) ==> p.number == q.parentSeq.value)
  }

  predicate Resolvable(rows: seq<Row>, q: Request) {
    !(GivesId(q) || GivesSeq(q)) || exists p :: p in rows && RefersTo(q, p)
  }

  /** The row is the request's: its texts, and both references to the message it replies to, or none when it replies to none. */
  ghost predicate Answers(rows: seq<Row>, q: Request, m: Row) {
    && m.room == q.room && m.sender == q.sender && m.content == q.content
    && if GivesId(q) || GivesSeq(q)
       then exists p :: p in rows && RefersTo(q, p) && m.parentId == Some(p.id) && m.parentSeq == Some(p.number)
       else m.parentId == None && m.parentSeq == None
  }

  predicate RowOk(r: Row) { GoTrim(r.id) == r.id }

  ghost predicate LogOk(rows: seq<Row>) {
    && (forall room :: SeqOk(rows, room))
    && (forall r :: r in rows ==> ParentOk(rows, r) && RowOk(r))
    && (forall i, j :: 0 <= i < j < |rows| ==> rows[i].id != rows[j].id)
  }

  /** Every message lies in a stored room, and the ids of stored rooms carry no white space around them. */
  predicate Housed(rooms: set<string>, rows: seq<Row>) {
    && (forall r :: r in rows ==> r.room in rooms)
    && forall room :: room in rooms ==> GoTrim(room) == room
  }

  lemma RoomRowsAppend(rows: seq<Row>, row: Row, room: string)
    ensures RoomRows(rows + [row], room) == RoomRows(rows, room) + if row.room == room then [row] else []
    ensures LastSeq(rows + [row], room) == if row.room == room && row.number > LastSeq(rows, room) then row.number else LastSeq(rows, room)
  {
  }

  lemma {:induction false} RoomRowsMembers(rows: seq<Row>, room: string, r: Row)
    ensures r in RoomRows(rows, room) <==> r in rows && r.room == room
    decreases |rows|
  {
    if rows != [] {
      var front, last := rows[..|rows| - 1], rows[|rows| - 1];
      assert rows == front + [last];
      RoomRowsMembers(front, room, r);
    }
  }

  /** With contiguous ids the largest one is the number of messages. */
  lemma {:induction false} LastIsCount(rows: seq<Row>, room: string)
    requires SeqOk(rows, room)
    ensures LastSeq(rows, room) == |RoomRows(rows, room)|
    decreases |rows|
  {
    if rows != [] {
      var front, last := rows[..|rows| - 1], rows[|rows| - 1];
      var a, b := RoomRows(front, room), RoomRows(rows, room);
      assert forall i :: 0 <= i < |a| ==> a[i] == b[i];
      LastIsCount(front, room);
      if last.room == room {
        assert b[|a|] == last;
      }
    }
  }

  lemma SeqTaken(rows: seq<Row>, room: string, n: int)
    requires SeqOk(rows, room)
    ensures (exists r :: r in rows && r.room == room && r.number == n) <==> 1 <= n <= |RoomRows(rows, room)|
  {
    var rs := RoomRows(rows, room);
    if 1 <= n <= |rs| {
      RoomRowsMembers(rows, room, rs[n - 1]);
      assert rs[n - 1] in rs;
    }
    if r :| r in rows && r.room == room && r.number == n {
      RoomRowsMembers(rows, room, r);
      var i :| 0 <= i < |rs| && rs[i] == r;
    }
  }

  // ------------------------------------------------- one transaction's steps

  /** What a transaction's row keeps from its reads, however many rows others insert meanwhile. */
  ghost predicate Prepared(rows: seq<Row>, row: Row) {
    ParentOk(rows, row) && RowOk(row) && 1 <= row.number <= LastSeq(rows, row.room) + 1
  }

  lemma PreparedByReads(rows: seq<Row>, q: Request, id: string)
    requires LogOk(rows) && GoTrim(id) == id && Prepare(rows, q, id).Some?
    ensures Prepared(rows, Prepare(rows, q, id).value)
    ensures Prepare(rows, q, id).value.number == LastSeq(rows, q.room) + 1
  {
    hide GoTrim, LastSeq, SeqOk;
    var row := Prepare(rows, q, id).value;
    assert SeqOk(rows, q.room);
    LastIsCount(rows, q.room);
    if row.parentId.Some? {
      var id := GoTrim(q.parentId);
      var found := if id != "" then FindById(rows, id) else FindBySeq(rows, q.room, q.parentSeq.value);
      var p := found.value;
      assert ParentOk(rows, p) && RowOk(p);
      if p.room == q.room {
        SeqTaken(rows, q.room, p.number);
      }
      assert Names(rows, row, p);
    }
  }

  /** What is prepared answers the request; nothing is prepared exactly when the request names no message of its room. */
  lemma PreparedAnswers(rows: seq<Row>, q: Request, id: string)
    requires LogOk(rows)
    ensures Prepare(rows, q, id).Some? <==> Resolvable(rows, q)
    ensures Prepare(rows, q, id).Some? ==> Answers(rows, q, Prepare(rows, q, id).value)
  {
    hide GoTrim, LastSeq, SeqOk, ParentOk;
    if GivesId(q) {
      if p :| p in rows && RefersTo(q, p) { UniqueId(rows, p, FindById(rows, p.id).value); }
    } else if GivesSeq(q) {
      if p :| p in rows && RefersTo(q, p) { UniqueSeq(rows, p, FindBySeq(rows, q.room, p.number).value); }
    }
    var found := if GivesId(q) then FindById(rows, GoTrim(q.parentId)) else if GivesSeq(q) then FindBySeq(rows, q.room, q.parentSeq.value) else None;
    if found.Some? {
      assert RowOk(found.value);
    }
  }

  lemma UniqueId(rows: seq<Row>, p: Row, r: Row)
    requires LogOk(rows) && p in rows && r in rows && p.id == r.id
    ensures p == r
  {
  }

  lemma UniqueSeq(rows: seq<Row>, p: Row, r: Row)
    requires LogOk(rows) && p in rows && r in rows && p.room == r.room && p.number == r.number
    ensures p == r
  {
    hide GoTrim, ParentOk;
    assert SeqOk(rows, p.room);
    var rs := RoomRows(rows, p.room);
    RoomRowsMembers(rows, p.room, p);
    RoomRowsMembers(rows, p.room, r);
    var i :| 0 <= i < |rs| && rs[i] == p;
    var j :| 0 <= j < |rs| && rs[j] == r;
  }

  lemma AnswersKept(rows: seq<Row>, more: Row, q: Request, m: Row)
    requires Answers(rows, q, m)
    ensures Answers(rows + [more], q, m)
  {
    AnswersGrow(rows, rows + [more], q, m);
  }

  lemma AnswersGrow(rows: seq<Row>, now: seq<Row>, q: Request, m: Row)
    requires Answers(rows, q, m) && rows <= now
    ensures Answers(now, q, m)
  {
    hide RefersTo, GivesId, GivesSeq;
    if GivesId(q) || GivesSeq(q) {
      var p :| p in rows && RefersTo(q, p) && m.parentId == Some(p.id) && m.parentSeq == Some(p.number);
      assert p in now;
    }
  }

  lemma ParentKept(rows: seq<Row>, more: Row, r: Row)
    requires ParentOk(rows, r)
    ensures ParentOk(rows + [more], r)
  {
    hide GoTrim;
    if p :| Names(rows, r, p) {
      assert Names(rows + [more], r, p);
    }
  }

  lemma PreparedKept(rows: seq<Row>, more: Row, row: Row)
    requires Prepared(rows, row)
    ensures Prepared(rows + [more], row)
  {
    hide GoTrim, ParentOk, LastSeq;
    ParentKept(rows, more, row);
    RoomRowsAppend(rows, more, row.room);
  }

  /**
   * A transaction's insert is refused by the index if and only if a message was stored in its room since it
   * read the last one (its id being new), so a stale reader can only fail and try again.
   */
  lemma StaleReaderFails(rows: seq<Row>, row: Row)
    requires LogOk(rows) && Prepared(rows, row) && forall r :: r in rows ==> r.id != row.id
    ensures Taken(rows, row) <==> row.number <= LastSeq(rows, row.room)
  {
    hide GoTrim, LastSeq, SeqOk, ParentOk;
    assert SeqOk(rows, row.room);
    LastIsCount(rows, row.room);
    SeqTaken(rows, row.room, row.number);
  }

  lemma InsertKeepsLog(rooms: set<string>, rows: seq<Row>, row: Row, o: Outcome)
    requires LogOk(rows) && Prepared(rows, row)
    ensures LogOk(Inserted(rooms, rows, row, o))
    ensures Housed(rooms, rows) ==> Housed(rooms, Inserted(rooms, rows, row, o))
  {
    hide GoTrim, LastSeq, SeqOk, ParentOk, RoomRows;
    if Admitted(rooms, rows, row) && !o.Lost? {
      var after := rows + [row];
      InsertFits(rows, row);
      forall room ensures SeqOk(after, room) { assert SeqOk(rows, room); InsertKeepsSeqs(rows, row, room); }
      forall r | r in after ensures ParentOk(after, r) && RowOk(r) {
        if r in rows { ParentKept(rows, row, r); } else { ParentKept(rows, row, row); }
      }
      assert forall r :: r in rows ==> r.id != row.id;
      assert forall i :: 0 <= i < |rows| ==> rows[i] in rows && after[i] == rows[i];
    }
  }

  lemma {:induction false} InsertFits(rows: seq<Row>, row: Row)
    requires LogOk(rows) && Prepared(rows, row) && !Taken(rows, row)
    ensures row.number == |RoomRows(rows, row.room)| + 1
  {
    hide GoTrim, LastSeq, SeqOk, ParentOk;
    assert SeqOk(rows, row.room);
    LastIsCount(rows, row.room);
    assert forall r :: r in rows ==> r.id != row.id;
    StaleReaderFails(rows, row);
  }

  lemma InsertKeepsSeqs(rows: seq<Row>, row: Row, room: string)
    requires SeqOk(rows, room) && row.number == |RoomRows(rows, row.room)| + 1
    ensures SeqOk(rows + [row], room)
  {
  }

  // ---------------------------------------------------------- runs of callers

  /** Where one call of saveMessage stands: between attempts, holding a prepared row, or back with its result. */
  datatype Phase = Ready | Holding(row: Row) | Returned(result: Option<Row>)

  datatype Call = Call(q: Request, attempt: nat, phase: Phase)

  /** The stored rooms and messages, the calls, and the ids of the rows whose commit was answered by an error. */
  datatype State = State(rooms: set<string>, rows: seq<Row>, calls: map<int, Call>, unreported: set<string>)

  datatype Action =
    | OpenRoom(room: string)
    | Begin(call: int, q: Request)
    | Look(call: int, id: string, ok: bool)
    | Insert(call: int, o: Outcome)

  const EMPTY := State({}, [], map[], {})

  /** A failed attempt: the call tries again, up to three times. */
  function Retried(c: Call): Call {
    Call(c.q, c.attempt + 1, if c.attempt + 1 < MAX_RETRIES then Ready else Returned(None))
  }

  function Looked(rows: seq<Row>, c: Call, id: string, ok: bool): Call {
    var row := if ok then Prepare(rows, c.q, id) else None;
    if row.None? then Retried(c) else c.(phase := Holding(row.value))
  }

  predicate CanLook(s: State, call: int, id: string) {
    call in s.calls && s.calls[call].phase.Ready? && GoTrim(id) == id
  }

  predicate CanInsert(s: State, call: int) { call in s.calls && s.calls[call].phase.Holding? }

  function Ended(s: State, call: int, o: Outcome): State
    requires CanInsert(s, call)
  {
    var c := s.calls[call];
    var row := c.phase.row;
    s.(rows := Inserted(s.rooms, s.rows, row, o),
       calls := s.calls[call := if Reported(s.rooms, s.rows, row, o) then c.(phase := Returned(Some(row))) else Retried(c)],
       unreported := s.unreported + if Admitted(s.rooms, s.rows, row) && o.AppliedError? then {row.id} else {})
  }

  /** Any step of any call; a step that is not possible changes nothing. */
  function Step(s: State, a: Action): State {
    match a
    case OpenRoom(room) => if GoTrim(room) == room then s.(rooms := s.rooms + {room}) else s
    case Begin(call, q) => if call in s.calls then s else s.(calls := s.calls[call := Call(q, 0, Ready)])
    case Look(call, id, ok) =>
      if CanLook(s, call, id) then s.(calls := s.calls[call := Looked(s.rows, s.calls[call], id, ok)]) else s
    case Insert(call, o) => if CanInsert(s, call) then Ended(s, call, o) else s
  }

  function Run(s: State, actions: seq<Action>): State
    decreases |actions|
  {
    if actions == [] then s else Run(Step(s, actions[0]), actions[1..])
  }

  ghost predicate CallOk(rows: seq<Row>, c: Call) {
    match c.phase
    case Ready => c.attempt < MAX_RETRIES
    case Holding(row) => c.attempt < MAX_RETRIES && Prepared(rows, row) && Answers(rows, c.q, row)
    case Returned(None) => c.attempt == MAX_RETRIES
    case Returned(Some(row)) => c.attempt < MAX_RETRIES && row in rows && Answers(rows, c.q, row)
  }

  /** Some call asked for this row. */
  ghost predicate Asked(s: State, r: Row) { exists c :: c in s.calls && Answers(s.rows, s.calls[c].q, r) }

  /** The call returned this row. */
  predicate Got(s: State, c: int, r: Row) { c in s.calls && s.calls[c].phase == Returned(Some(r)) }

  ghost predicate AccountOk(s: State, r: Row) {
    && (r in s.rows ==> (r.id in s.unreported <==> !exists c :: Got(s, c, r)))
    && (forall c, d :: Got(s, c, r) && Got(s, d, r) ==> c == d)
  }

  ghost predicate Inv(s: State) {
    && LogOk(s.rows) && Housed(s.rooms, s.rows)
    && (forall c :: c in s.calls ==> CallOk(s.rows, s.calls[c]))
    && (forall r :: AccountOk(s, r))
    && (forall id :: id in s.unreported ==> HasId(s.rows, id))
    && (forall r :: r in s.rows ==> Asked(s, r))
  }

  predicate HasId(rows: seq<Row>, id: string) { exists r :: r in rows && r.id == id }

  lemma OpenInv(s: State, room: string)
    requires Inv(s)
    ensures Inv(Step(s, OpenRoom(room)))
  {
    hide LogOk, CallOk, GoTrim, Answers;
    var t := Step(s, OpenRoom(room));
    forall r ensures AccountOk(t, r) { assert AccountOk(s, r); SameCalls(s, t, r); }
    forall r | r in t.rows ensures Asked(t, r) { assert Asked(s, r); StillAsked(s, t, r); }
  }

  lemma StillAsked(s: State, t: State, r: Row)
    requires Asked(s, r) && t.rows == s.rows && forall c :: c in s.calls ==> c in t.calls && t.calls[c].q == s.calls[c].q
    ensures Asked(t, r)
  {
    hide Answers;
    var c :| c in s.calls && Answers(s.rows, s.calls[c].q, r);
    assert c in t.calls && Answers(t.rows, t.calls[c].q, r);
  }

  lemma SameCalls(s: State, t: State, r: Row)
    requires AccountOk(s, r) && t.rows == s.rows && t.unreported == s.unreported
    requires forall c :: Got(t, c, r) <==> Got(s, c, r)
    ensures AccountOk(t, r)
  {
  }

  lemma BeginInv(s: State, call: int, q: Request)
    requires Inv(s)
    ensures Inv(Step(s, Begin(call, q)))
  {
    hide LogOk, Prepared, Housed, Answers;
    var t := Step(s, Begin(call, q));
    forall r ensures AccountOk(t, r) { assert AccountOk(s, r); SameCalls(s, t, r); }
    forall r | r in t.rows ensures Asked(t, r) { assert Asked(s, r); StillAsked(s, t, r); }
  }

  lemma LookInv(s: State, call: int, id: string, ok: bool)
    requires Inv(s)
    ensures Inv(Step(s, Look(call, id, ok)))
  {
    hide LogOk, Prepared, Prepare, GoTrim, Housed, Answers;
    if CanLook(s, call, id) {
      if ok && Prepare(s.rows, s.calls[call].q, id).Some? {
        PreparedByReads(s.rows, s.calls[call].q, id);
        PreparedAnswers(s.rows, s.calls[call].q, id);
      }
      var t := Step(s, Look(call, id, ok));
      forall r ensures AccountOk(t, r) { assert AccountOk(s, r); SameCalls(s, t, r); }
      forall r | r in t.rows ensures Asked(t, r) { assert Asked(s, r); StillAsked(s, t, r); }
    }
  }

  lemma CallKept(rooms: set<string>, rows: seq<Row>, row: Row, o: Outcome, c: Call)
    requires CallOk(rows, c)
    ensures CallOk(Inserted(rooms, rows, row, o), c)
  {
    hide Prepared, Taken, Answers;
    if c.phase.Holding? {
      PreparedKept(rows, row, c.phase.row);
      AnswersKept(rows, row, c.q, c.phase.row);
    } else if c.phase.Returned? && c.phase.result.Some? {
      AnswersKept(rows, row, c.q, c.phase.result.value);
    }
  }

  lemma InsertInv(s: State, call: int, o: Outcome)
    requires Inv(s) && CanInsert(s, call)
    ensures Inv(Step(s, Insert(call, o)))
  {
    hide LogOk, Prepared, Taken, CallOk, Housed, AccountOk, HasId, Answers;
    var c := s.calls[call];
    var d := Step(s, Insert(call, o));
    assert CallOk(s.rows, c);
    HoldingFacts(s.rows, c);
    InsertKeepsLog(s.rooms, s.rows, c.phase.row, o);
    forall b | b in d.calls ensures CallOk(d.rows, d.calls[b]) {
      assert CallOk(s.rows, s.calls[b]);
      if b != call { CallKept(s.rooms, s.rows, c.phase.row, o, s.calls[b]); } else { EndedOk(s, call, o); }
    }
    forall r ensures AccountOk(d, r) { InsertAccounts(s, call, o, r); }
    forall id | id in d.unreported ensures HasId(d.rows, id) { InsertKeepsIds(s, call, o, id); }
    forall r | r in d.rows ensures Asked(d, r) { InsertAsked(s, call, o, r); }
  }

  lemma InsertAsked(s: State, call: int, o: Outcome, r: Row)
    requires CanInsert(s, call) && CallOk(s.rows, s.calls[call]) && (r in s.rows ==> Asked(s, r)) && r in Ended(s, call, o).rows
    ensures Asked(Ended(s, call, o), r)
  {
    hide Taken, Answers, Prepared;
    var d, row := Ended(s, call, o), s.calls[call].phase.row;
    var c := call;
    if r in s.rows {
      c :| c in s.calls && Answers(s.rows, s.calls[c].q, r);
    }
    if d.rows != s.rows { AnswersKept(s.rows, row, s.calls[c].q, r); }
    assert c in d.calls && d.calls[c].q == s.calls[c].q;
  }

  lemma HoldingFacts(rows: seq<Row>, c: Call)
    requires CallOk(rows, c) && c.phase.Holding?
    ensures Prepared(rows, c.phase.row)
  {
  }

  lemma EndedOk(s: State, call: int, o: Outcome)
    requires CanInsert(s, call) && CallOk(s.rows, s.calls[call])
    ensures CallOk(Ended(s, call, o).rows, Ended(s, call, o).calls[call])
  {
    hide Answers, Prepared, Taken;
    var c := s.calls[call];
    if Reported(s.rooms, s.rows, c.phase.row, o) { AnswersKept(s.rows, c.phase.row, c.q, c.phase.row); }
  }

  lemma InsertKeepsIds(s: State, call: int, o: Outcome, id: string)
    requires CanInsert(s, call) && id in Ended(s, call, o).unreported && (id in s.unreported ==> HasId(s.rows, id))
    ensures HasId(Ended(s, call, o).rows, id)
  {
    hide Taken;
    var d := Ended(s, call, o);
    if r :| r in s.rows && r.id == id {
      assert r in d.rows;
    } else {
      assert s.calls[call].phase.row in d.rows;
    }
  }

  /** A new row belongs to the call that reports it, or to nobody; no other row changes hands. */
  lemma InsertAccounts(s: State, call: int, o: Outcome, r: Row)
    requires Inv(s) && CanInsert(s, call)
    ensures AccountOk(Ended(s, call, o), r)
  {
    hide LogOk, Prepared, Housed;
    var d, row := Ended(s, call, o), s.calls[call].phase.row;
    assert AccountOk(s, r) && !Got(s, call, r);
    if Admitted(s.rooms, s.rows, row) {
      assert forall p :: p in s.rows ==> p.id != row.id;
      assert row.id in s.unreported ==> HasId(s.rows, row.id);
      if r == row {
        assert forall c :: Got(s, c, r) ==> r in s.rows;
        if o.Applied? { assert Got(d, call, r); }
      }
    }
    forall c | c != call ensures Got(d, c, r) <==> Got(s, c, r) { }
    assert Got(d, call, r) <==> r == row && Reported(s.rooms, s.rows, row, o);
    if r in s.rows {
      if c :| Got(s, c, r) { assert Got(d, c, r); }
    }
  }

  lemma {:induction false} RunInv(s: State, actions: seq<Action>)
    requires Inv(s)
    ensures Inv(Run(s, actions))
    decreases |actions|
  {
    hide Inv, Ended, Looked;
    if actions != [] {
      match actions[0] {
        case OpenRoom(room) => OpenInv(s, room);
        case Begin(call, q) => BeginInv(s, call, q);
        case Look(call, id, ok) => LookInv(s, call, id, ok);
        case Insert(call, o) => if CanInsert(s, call) { InsertInv(s, call, o); }
      }
      RunInv(Step(s, actions[0]), actions[1..]);
    }
  }

  lemma EmptyInv()
    ensures Inv(EMPTY)
  {
  }

  /** On every run the sequence ids of a room are 1, 2, up to the number of its messages, without gap or repeat. */
  lemma SequenceIsContiguous(actions: seq<Action>, room: string, row: Row)
    ensures var rows := Run(EMPTY, actions).rows;
            && (forall i :: 0 <= i < |RoomRows(rows, room)| ==> RoomRows(rows, room)[i].number == i + 1)
            && (row in RoomRows(rows, room) <==> row in rows && row.room == room)
            && LastSeq(rows, room) == |RoomRows(rows, room)|
  {
    hide Run;
    EmptyInv();
    RunInv(EMPTY, actions);
    var rows := Run(EMPTY, actions).rows;
    assert SeqOk(rows, room);
    LastIsCount(rows, room);
    RoomRowsMembers(rows, room, row);
  }

  /**
   * A call makes at most three attempts; it returns a stored message of its room, or nothing after the third.
   * A request that names no stored room, such as one with white space around the name, gets nothing.
   */
  lemma SaveIsBounded(actions: seq<Action>, call: int)
    requires call in Run(EMPTY, actions).calls
    ensures var s := Run(EMPTY, actions);
            var c := s.calls[call];
            && c.attempt <= 3
            && (c.phase.Returned? && c.phase.result.Some? ==>
                  && c.phase.result.value in s.rows && c.phase.result.value.room == c.q.room
                  && c.q.room in s.rooms && GoTrim(c.q.room) == c.q.room)
            && (c.phase == Returned(None) ==> c.attempt == 3)
  {
    hide Run, LogOk, Prepared, AccountOk, GoTrim;
    EmptyInv();
    RunInv(EMPTY, actions);
    CallBounded(Run(EMPTY, actions).rows, Run(EMPTY, actions).calls[call]);
  }

  lemma CallBounded(rows: seq<Row>, c: Call)
    requires CallOk(rows, c)
    ensures c.attempt <= MAX_RETRIES
  {
  }

  /** Every stored row was returned to exactly one call, or to none, and to none exactly when its commit was answered by an error. */
  lemma RowsAreAccountedFor(actions: seq<Action>, r: Row)
    requires r in Run(EMPTY, actions).rows
    ensures var s := Run(EMPTY, actions);
            && (r.id in s.unreported <==> !exists c :: Got(s, c, r))
            && (forall c, d :: Got(s, c, r) && Got(s, d, r) ==> c == d)
  {
    hide Run, LogOk, CallOk, Housed, Got;
    EmptyInv();
    RunInv(EMPTY, actions);
    assert AccountOk(Run(EMPTY, actions), r);
  }

  // -------------------------------------------------------------- references

  lemma OneRowById(rows: seq<Row>, p: Row)
    requires LogOk(rows) && p in rows
    ensures FindById(rows, p.id) == Some(p)
  {
  }

  /** On every run the two stored references of a message name one and the same stored row of its room, an earlier one. */
  lemma ReferencesNameOneRow(actions: seq<Action>, r: Row)
    requires r in Run(EMPTY, actions).rows && (r.parentId.Some? || r.parentSeq.Some?)
    ensures var rows := Run(EMPTY, actions).rows;
            && r.parentId.Some?
            && var p := FindById(rows, r.parentId.value);
               && p.Some? && r.parentSeq == Some(p.value.number)
               && p.value in rows && p.value.room == r.room && p.value.number < r.number
  {
    hide Run, CallOk, GoTrim, AccountOk, HasId;
    EmptyInv();
    RunInv(EMPTY, actions);
    var rows := Run(EMPTY, actions).rows;
    assert ParentOk(rows, r);
    var p :| Names(rows, r, p);
    OneRowById(rows, p);
  }

  /**
   * On every run what a call returns answers its request: it replies to the stored message of its room with the given
   * id, or else the given number, or to nothing exactly when the request gives neither; and every stored row answers
   * some call's request in this way.
   */
  lemma RepliesFindTheirParents(actions: seq<Action>, call: int, r: Row)
    ensures var s := Run(EMPTY, actions);
            && (Got(s, call, r) ==>
                 var q := s.calls[call].q;
                 && r in s.rows && r.room == q.room && r.sender == q.sender && r.content == q.content
                 && (r.parentId.None? && r.parentSeq.None? <==> GoTrim(q.parentId) == "" && !(q.parentSeq.Some? && q.parentSeq.value > 0))
                 && (GoTrim(q.parentId) != "" ==> r.parentId == Some(GoTrim(q.parentId)))
                 && (q.parentSeq.Some? && q.parentSeq.value > 0 ==> r.parentSeq == q.parentSeq)
                 && (r.parentId.Some? ==> exists p :: p in s.rows && p.room == r.room && r.parentId == Some(p.id) && r.parentSeq == Some(p.number)))
            && (r in s.rows ==> exists c :: c in s.calls && Answers(s.rows, s.calls[c].q, r))
  {
    hide Run, LogOk, Prepared, AccountOk, HasId;
    EmptyInv();
    RunInv(EMPTY, actions);
    var s := Run(EMPTY, actions);
    if Got(s, call, r) {
      assert CallOk(s.rows, s.calls[call]);
      if r.parentId.Some? { ParentInRoom(s, s.calls[call].q, r); }
    }
    if r in s.rows { assert Asked(s, r); }
  }

  lemma ParentInRoom(s: State, q: Request, r: Row)
    requires Housed(s.rooms, s.rows) && Answers(s.rows, q, r) && r in s.rows && r.parentId.Some?
    ensures exists p :: p in s.rows && p.room == r.room && r.parentId == Some(p.id) && r.parentSeq == Some(p.number)
  {
    hide GoTrim;
    var p :| p in s.rows && RefersTo(q, p) && r.parentId == Some(p.id) && r.parentSeq == Some(p.number);
    assert p.room in s.rooms && r.room in s.rooms;
  }

  predicate TidyRooms(rows: seq<Row>) { forall r :: r in rows ==> GoTrim(r.room) == r.room }

  function ParentOf(rows: seq<Row>, r: Row): Option<Row> {
    if r.parentId.None? then None else FindById(rows, r.parentId.value)
  }

  lemma ParentFacts(rows: seq<Row>, r: Row)
    requires LogOk(rows) && TidyRooms(rows) && r in rows
    ensures r.number >= 1
    ensures ParentOf(rows, r).None? <==> r.parentId.None?
    ensures var p := ParentOf(rows, r);
            p.Some? ==> p.value in rows && p.value.room == r.room && p.value.number < r.number
  {
    hide GoTrim;
    assert SeqOk(rows, r.room) && ParentOk(rows, r);
    SeqTaken(rows, r.room, r.number);
    if p :| Names(rows, r, p) {
      OneRowById(rows, p);
    }
  }

  /** The chain of replies above a message; it is walked with the sequence id as measure. */
  function Ancestors(rows: seq<Row>, r: Row): (above: seq<Row>)
    requires LogOk(rows) && TidyRooms(rows) && r in rows
    decreases r.number
  {
    ParentFacts(rows, r);
    var p := ParentOf(rows, r);
    if p.None? then [] else [p.value] + Ancestors(rows, p.value)
  }

  /**
   * On every run the replies form a forest: the walk to the parents of any message stays in its room, strictly
   * descends, and ends at a message that replies to nothing.
   */
  lemma RepliesAreAForest(actions: seq<Action>, r: Row)
    requires r in Run(EMPTY, actions).rows
    ensures var rows := Run(EMPTY, actions).rows;
            && LogOk(rows) && TidyRooms(rows)
            && var above := Ancestors(rows, r);
               && r !in above && |above| < r.number
               && (forall i :: 0 <= i < |above| ==> above[i] in rows && above[i].room == r.room && above[i].number < r.number)
               && (forall i, j :: 0 <= i < j < |above| ==> above[j].number < above[i].number)
               && (if above == [] then r.parentId.None? else above[|above| - 1].parentId.None?)
  {
    hide Run, GoTrim, LogOk, Ancestors, Housed;
    RunLog(actions);
    Descending(Run(EMPTY, actions).rows, r);
  }

  lemma RunLog(actions: seq<Action>)
    ensures var s := Run(EMPTY, actions); LogOk(s.rows) && Housed(s.rooms, s.rows) && TidyRooms(s.rows)
  {
    hide Run, LogOk, CallOk, AccountOk, HasId, Asked, GoTrim;
    EmptyInv();
    RunInv(EMPTY, actions);
  }

  lemma {:induction false} Descending(rows: seq<Row>, r: Row)
    requires LogOk(rows) && TidyRooms(rows) && r in rows
    ensures var above := Ancestors(rows, r);
            && (forall i :: 0 <= i < |above| ==> above[i] in rows && above[i].room == r.room && above[i].number < r.number)
            && (forall i, j :: 0 <= i < j < |above| ==> above[j].number < above[i].number)
            && |above| < r.number
            && (if above == [] then r.parentId.None? else above[|above| - 1].parentId.None?)
    decreases r.number
  {
    hide LogOk, ParentOf, TidyRooms;
    ParentFacts(rows, r);
    var p := ParentOf(rows, r);
    if p.Some? {
      Descending(rows, p.value);
      var rest := Ancestors(rows, p.value);
      assert Ancestors(rows, r) == [p.value] + rest;
      assert |rest| < p.value.number < r.number;
    }
  }

  // -------------------------------------------------------------- the method

  datatype Post = Post(q: Request, id: string)

  /** What other transactions commit while this one is open: each a whole save of its own. */
  function Others(rooms: set<string>, rows: seq<Row>, posts: seq<Post>): seq<Row>
    decreases |posts|
  {
    if posts == [] then rows
    else
      var before := Others(rooms, rows, posts[..|posts| - 1]);
      var row := Prepare(before, posts[|posts| - 1].q, posts[|posts| - 1].id);
      if row.None? then before else Inserted(rooms, before, row.value, Applied)
  }

  /** Everything outside the code's control during one attempt. */
  datatype Weather = Weather(id: string, readOk: bool, meanwhile: seq<Post>, outcome: Outcome)

  function Attempt(rooms: set<string>, rows: seq<Row>, q: Request, w: Weather): (seq<Row>, Option<Row>) {
    var row := if w.readOk then Prepare(rows, q, w.id) else None;
    var now := Others(rooms, rows, w.meanwhile);
    if row.None? then (now, None)
    else (Inserted(rooms, now, row.value, w.outcome), if Reported(rooms, now, row.value, w.outcome) then row else None)
  }

  /** The attempts from the i-th on; the first that reports success ends the save. */
  function Save(rooms: set<string>, rows: seq<Row>, q: Request, weather: seq<Weather>, i: nat): (seq<Row>, Option<Row>)
    requires |weather| == MAX_RETRIES && i <= MAX_RETRIES
    decreases MAX_RETRIES - i
  {
    if i == MAX_RETRIES then (rows, None)
    else
      var (now, row) := Attempt(rooms, rows, q, weather[i]);
      if row.Some? then (now, row) else Save(rooms, now, q, weather, i + 1)
  }

  predicate FairIds(posts: seq<Post>) { forall i :: 0 <= i < |posts| ==> GoTrim(posts[i].id) == posts[i].id }

  predicate Fair(w: Weather) { GoTrim(w.id) == w.id && FairIds(w.meanwhile) }

  lemma {:induction false} OthersKeep(rooms: set<string>, rows: seq<Row>, posts: seq<Post>, row: Row)
    requires LogOk(rows) && FairIds(posts)
    ensures LogOk(Others(rooms, rows, posts)) && rows <= Others(rooms, rows, posts)
    ensures Housed(rooms, rows) ==> Housed(rooms, Others(rooms, rows, posts))
    ensures Prepared(rows, row) ==> Prepared(Others(rooms, rows, posts), row)
    decreases |posts|
  {
    hide LogOk, Prepared, GoTrim, Prepare, Taken, Housed;
    if posts != [] {
      var front, last := posts[..|posts| - 1], posts[|posts| - 1];
      OthersKeep(rooms, rows, front, row);
      var before := Others(rooms, rows, front);
      var other := Prepare(before, last.q, last.id);
      if other.Some? {
        PreparedByReads(before, last.q, last.id);
        InsertKeepsLog(rooms, before, other.value, Applied);
        if Prepared(before, row) { PreparedKept(before, other.value, row); }
      }
    }
  }

  /**
   * One attempt succeeds exactly when its reads succeed, it replies to nothing or to a message of its room, the room exists, the commit
   * is reported, its id is new, and no message entered the room between its read and its insert.
   */
  lemma AttemptSucceedsIff(rooms: set<string>, rows: seq<Row>, q: Request, w: Weather)
    requires LogOk(rows) && Fair(w)
    ensures var now := Others(rooms, rows, w.meanwhile);
            Attempt(rooms, rows, q, w).1.Some?
            <==> w.readOk && Resolvable(rows, q) && q.room in rooms && w.outcome.Applied?
                 && (forall r :: r in now ==> r.id != w.id) && LastSeq(now, q.room) == LastSeq(rows, q.room)
  {
    hide LogOk, Prepared, GoTrim, Resolve, LastSeq, Resolvable, Answers;
    var row := Prepare(rows, q, w.id);
    var now := Others(rooms, rows, w.meanwhile);
    PreparedAnswers(rows, q, w.id);
    if row.Some? {
      PreparedByReads(rows, q, w.id);
      OthersKeep(rooms, rows, w.meanwhile, row.value);
      PreparedRange(now, row.value);
      if forall r :: r in now ==> r.id != w.id {
        StaleReaderFails(now, row.value);
      }
    }
  }

  lemma PreparedRange(rows: seq<Row>, row: Row)
    requires Prepared(rows, row)
    ensures row.number <= LastSeq(rows, row.room) + 1
  {
  }

  lemma AttemptKeeps(rooms: set<string>, rows: seq<Row>, q: Request, w: Weather)
    requires LogOk(rows) && Fair(w)
    ensures var (now, m) := Attempt(rooms, rows, q, w);
            && LogOk(now) && rows <= now
            && (Housed(rooms, rows) ==> Housed(rooms, now))
            && (m.Some? ==> m.value in now && m.value.number == LastSeq(rows, q.room) + 1 && Answers(now, q, m.value) && q.room in rooms)
  {
    hide LogOk, Prepared, GoTrim, Resolve, LastSeq, Taken, Housed, Answers;
    var row := Prepare(rows, q, w.id);
    if w.readOk && row.Some? {
      PreparedByReads(rows, q, w.id);
      PreparedAnswers(rows, q, w.id);
      OthersKeep(rooms, rows, w.meanwhile, row.value);
      AnswersGrow(rows, Inserted(rooms, Others(rooms, rows, w.meanwhile), row.value, w.outcome), q, row.value);
      InsertKeepsLog(rooms, Others(rooms, rows, w.meanwhile), row.value, w.outcome);
    } else {
      OthersKeep(rooms, rows, w.meanwhile, Row("", "", "", "", None, None, 0));
    }
  }

  lemma {:induction false} SaveKeeps(rooms: set<string>, rows: seq<Row>, q: Request, weather: seq<Weather>, i: nat)
    requires |weather| == MAX_RETRIES && i <= MAX_RETRIES && LogOk(rows) && forall k :: 0 <= k < MAX_RETRIES ==> Fair(weather[k])
    ensures var (now, m) := Save(rooms, rows, q, weather, i);
            && LogOk(now) && rows <= now
            && (Housed(rooms, rows) ==> Housed(rooms, now))
            && (m.Some? ==> m.value in now && m.value.number > LastSeq(rows, q.room) && Answers(now, q, m.value) && q.room in rooms)
    decreases MAX_RETRIES - i
  {
    hide LogOk, LastSeq, Attempt, Fair, Answers, Housed;
    if i < MAX_RETRIES {
      AttemptKeeps(rooms, rows, q, weather[i]);
      var (now, m) := Attempt(rooms, rows, q, weather[i]);
      SaveKeeps(rooms, now, q, weather, i + 1);
      LastSeqGrows(rows, now, q.room);
    }
  }

  lemma {:induction false} LastSeqGrows(rows: seq<Row>, now: seq<Row>, room: string)
    requires rows <= now
    ensures LastSeq(rows, room) <= LastSeq(now, room)
    decreases |now|
  {
    if |rows| < |now| {
      LastSeqGrows(rows, now[..|now| - 1], room);
    } else {
      assert rows == now;
    }
  }

  /** The log after the first n attempts, when none of them reports success. */
  function AfterAttempts(rooms: set<string>, rows: seq<Row>, q: Request, weather: seq<Weather>, n: nat): seq<Row>
    requires n <= |weather|
  {
    if n == 0 then rows else Attempt(rooms, AfterAttempts(rooms, rows, q, weather, n - 1), q, weather[n - 1]).0
  }

  predicate AttemptFails(rooms: set<string>, rows: seq<Row>, q: Request, weather: seq<Weather>, n: nat)
    requires n < |weather|
  {
    Attempt(rooms, AfterAttempts(rooms, rows, q, weather, n), q, weather[n]).1.None?
  }

  /** A save makes up to three attempts, each on the log the others left, and its answer is that of the first that succeeds. */
  lemma FirstSuccessWins(rooms: set<string>, rows: seq<Row>, q: Request, weather: seq<Weather>)
    requires |weather| == 3
    ensures var (now, m) := Save(rooms, rows, q, weather, 0);
            && (m.None? <==> AttemptFails(rooms, rows, q, weather, 0) && AttemptFails(rooms, rows, q, weather, 1) && AttemptFails(rooms, rows, q, weather, 2))
            && (m.None? ==> now == AfterAttempts(rooms, rows, q, weather, 3))
            && forall n :: 0 <= n < 3 && !AttemptFails(rooms, rows, q, weather, n) && (forall k :: 0 <= k < n ==> AttemptFails(rooms, rows, q, weather, k)) ==>
                 (now, m) == Attempt(rooms, AfterAttempts(rooms, rows, q, weather, n), q, weather[n])
  {
    hide Attempt;
    var r0 := AfterAttempts(rooms, rows, q, weather, 0);
    var r1 := AfterAttempts(rooms, rows, q, weather, 1);
    var r2 := AfterAttempts(rooms, rows, q, weather, 2);
    var r3 := AfterAttempts(rooms, rows, q, weather, 3);
    assert r1 == Attempt(rooms, r0, q, weather[0]).0 && r2 == Attempt(rooms, r1, q, weather[1]).0 && r3 == Attempt(rooms, r2, q, weather[2]).0;
    assert Save(rooms, r3, q, weather, 3) == (r3, None);
    assert Save(rooms, r2, q, weather, 2) == if Attempt(rooms, r2, q, weather[2]).1.Some? then Attempt(rooms, r2, q, weather[2]) else (r3, None);
    assert Save(rooms, r1, q, weather, 1) == if Attempt(rooms, r1, q, weather[1]).1.Some? then Attempt(rooms, r1, q, weather[1]) else Save(rooms, r2, q, weather, 2);
  }

  class MessageTable {
    const rooms: set<string>
    var rows: seq<Row>

    constructor (rooms: set<string>)
      ensures rows == [] && this.rooms == rooms
    {
      this.rooms, rows := rooms, [];
    }

    method OthersCommit(posts: seq<Post>)
      modifies this
      ensures rows == Others(rooms, old(rows), posts)
    {
      for i := 0 to |posts|
        invariant rows == Others(rooms, old(rows), posts[..i])
      {
        assert posts[..i + 1][..i] == posts[..i];
        var row := Prepare(rows, posts[i].q, posts[i].id);
        if row.Some? {
          var ok := Create(row.value, Applied);
        }
      }
      assert posts[..|posts|] == posts;
    }

    method Exists(row: Row) returns (found: bool)
      ensures found == Taken(rows, row)
    {
      found := false;
      for i := 0 to |rows|
        invariant found == Taken(rows[..i], row)
      {
        assert rows[..i + 1] == rows[..i] + [rows[i]];
        if rows[i].id == row.id || (rows[i].room == row.room && rows[i].number == row.number) {
          found := true;
        }
      }
      assert rows[..|rows|] == rows;
    }

    method Create(row: Row, o: Outcome) returns (ok: bool)
      modifies this
      ensures rows == Inserted(rooms, old(rows), row, o) && ok == Reported(rooms, old(rows), row, o)
    {
      var found := Exists(row);
      if row.room !in rooms || found || o.Lost? { return false; }
      rows := rows + [row];
      return o.Applied?;
    }

    method SaveMessage(q: Request, weather: seq<Weather>) returns (saved: Option<Row>)
      requires |weather| == MAX_RETRIES
      modifies this
      ensures (rows, saved) == Save(rooms, old(rows), q, weather, 0)
    {
      hide Taken, Prepare;
      for i := 0 to MAX_RETRIES
        invariant Save(rooms, rows, q, weather, i) == Save(rooms, old(rows), q, weather, 0)
      {
        var w := weather[i];
        var row := if w.readOk then Prepare(rows, q, w.id) else None;
        OthersCommit(w.meanwhile);
        if row.Some? {
          var ok := Create(row.value, w.outcome);
          if ok {
            return row;
          }
        }
      }
      saved := None;
    }
  }
}
