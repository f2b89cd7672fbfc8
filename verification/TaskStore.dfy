/** The status state machine of tasks, and its two implementations: rows in a database and a map in memory. */
module TaskStore {
  import opened Basics
  import opened Text

  datatype Status = Pending | Running | Succeeded | Failed

  /** A task as the store keeps it; payload, priority and times do not influence the protocol. */
  datatype Task = Task(id: string, requestId: string, status: Status, result: string, errorMessage: string)

  datatype Error = NotFound | DuplicateRequest | AlreadyStarted | AlreadyCompleted | Broken

  datatype Mark = MarkRunning | MarkSucceeded(result: string) | MarkFailed(message: string)

  datatype Verdict = Ok(task: Task) | Refused(error: Error)

  type Store = map<string, Task>

  /** How a database transaction ends: committed, lost before commit, or committed with the answer lost. */
  datatype Db = Works | BreaksBefore | BreaksAfter

  /** What a caller gets: a task (nil is None) and an error (nil is None). */
  datatype Reply = Reply(task: Option<Task>, error: Option<Error>)

  predicate Terminal(s: Status) { s == Succeeded || s == Failed }

  /** The mutation each Mark method applies under the row lock. */
  function Judge(t: Task, m: Mark): Verdict {
    match m
    case MarkRunning =>
      if t.status == Running then Refused(AlreadyStarted)
      else if Terminal(t.status) then Refused(AlreadyCompleted)
      else Ok(t.(status := Running))
    case MarkSucceeded(result) =>
      if t.status == Succeeded then Ok(t)
      else if t.status == Failed then Refused(AlreadyCompleted)
      else if t.status != Running then Refused(AlreadyStarted)
      else Ok(t.(status := Succeeded, result := result, errorMessage := ""))
    case MarkFailed(message) =>
      if t.status == Failed then Ok(t)
      else if t.status == Succeeded then Refused(AlreadyCompleted)
      else if t.status != Running then Refused(AlreadyStarted)
      else Ok(t.(status := Failed, errorMessage := message))
  }

  /** The store after one Mark transaction. */
  function Marked(s: Store, id: string, m: Mark, db: Db): Store {
    if id !in s || db == BreaksBefore || Judge(s[id], m).Refused? then s else s[id := Judge(s[id], m).task]
  }

  /**
   * The answer of one Mark transaction. With `leaky`, a refusal comes with a clone of the task, as the
   * map-based store returns it; otherwise an error always comes with nil.
   */
  function ReplyTo(leaky: bool, s: Store, id: string, m: Mark, db: Db): Reply {
    if db == BreaksBefore then Reply(None, Some(Broken))
    else if id !in s then Reply(None, Some(NotFound))
    else
      match Judge(s[id], m)
      case Ok(t) => if db == BreaksAfter then Reply(None, Some(Broken)) else Reply(Some(t), None)
      case Refused(e) => Reply(if leaky then Some(s[id]) else None, Some(e))
  }

  /** The unique index on request ids. */
  predicate RequestTaken(s: Store, t: Task) {
    exists id :: id in s && s[id].requestId == t.requestId && s[id].requestId != "" && s[id].id != t.id
  }

  // -------------------------------------------------------- the state machine

  /** The status histories a task may have: prefixes of Pending, Running, then one end. */
  predicate Lifecycle(h: seq<Status>) {
    h == [Pending] || h == [Pending, Running]
    || h == [Pending, Running, Succeeded] || h == [Pending, Running, Failed]
  }

  /** One mark, whatever the database does, keeps identity and moves at most one step forward. */
  lemma MarkMovesForward(s: Store, id: string, m: Mark, db: Db, h: seq<Status>)
    requires id in s && Lifecycle(h) && Last(h) == s[id].status
    ensures var t := Marked(s, id, m, db);
            && t.Keys == s.Keys
            && (forall other :: other in s && other != id ==> t[other] == s[other])
            && t[id].id == s[id].id && t[id].requestId == s[id].requestId
            && Lifecycle(if t[id].status == s[id].status then h else h + [t[id].status])
            && (t[id].status == s[id].status ==> t == s)
  {
    var t := Marked(s, id, m, db);
    if t[id].status != s[id].status {
      assert h == [Pending] || h == [Pending, Running];
      assert [Pending] + [Running] == [Pending, Running];
      assert [Pending, Running] + [t[id].status] == [Pending, Running, t[id].status];
    }
  }

  /** A pending task can only become running; a terminal one never changes; an answer nil-error is applied. */
  lemma MarkFacts(leaky: bool, s: Store, id: string, m: Mark, db: Db)
    ensures id in s && s[id].status == Pending && !m.MarkRunning? ==> Marked(s, id, m, db) == s
    ensures id in s && s[id].status == Pending && !m.MarkRunning? && db != BreaksBefore ==>
              ReplyTo(leaky, s, id, m, db).error == Some(AlreadyStarted)
    ensures id in s && Terminal(s[id].status) ==> Marked(s, id, m, db) == s
    ensures ReplyTo(leaky, s, id, m, db).error == None ==>
              id in s && ReplyTo(leaky, s, id, m, db).task == Some(Marked(s, id, m, db)[id])
    ensures ReplyTo(leaky, s, id, MarkRunning, db).error == None ==>
              s[id].status == Pending && Marked(s, id, MarkRunning, db)[id].status == Running
    ensures !leaky && ReplyTo(leaky, s, id, m, db).error != None ==> ReplyTo(leaky, s, id, m, db).task == None
  {
  }

  /** What each mark writes: exactly one of these changes, or none. */
  lemma MarkWrites(leaky: bool, s: Store, id: string, m: Mark, db: Db)
    requires id in s && db != BreaksBefore
    ensures var t, u, e := s[id], Marked(s, id, m, db), ReplyTo(leaky, s, id, m, db).error;
            && (m.MarkRunning? ==>
                  if t.status == Pending then u == s[id := t.(status := Running)]
                  else u == s && e == Some(if t.status == Running then AlreadyStarted else AlreadyCompleted))
            && (m.MarkSucceeded? ==>
                  if t.status == Running then u == s[id := t.(status := Succeeded, result := m.result, errorMessage := "")]
                  else u == s && (t.status == Failed ==> e == Some(AlreadyCompleted)) && (t.status == Pending ==> e == Some(AlreadyStarted)))
            && (m.MarkFailed? ==>
                  if t.status == Running then u == s[id := t.(status := Failed, errorMessage := m.message)]
                  else u == s && (t.status == Succeeded ==> e == Some(AlreadyCompleted)) && (t.status == Pending ==> e == Some(AlreadyStarted)))
  {
  }

  datatype Operation = Operation(id: string, mark: Mark, db: Db)

  function MarkedAll(s: Store, ops: seq<Operation>): Store
    decreases |ops|
  {
    if ops == [] then s else MarkedAll(Marked(s, ops[0].id, ops[0].mark, ops[0].db), ops[1..])
  }

  /** Once terminal, a record survives any later operations unchanged: status, result and message. */
  lemma {:induction false} TerminalIsFinal(s: Store, ops: seq<Operation>, id: string)
    requires id in s && Terminal(s[id].status)
    ensures id in MarkedAll(s, ops) && MarkedAll(s, ops)[id] == s[id]
    decreases |ops|
  {
    if ops != [] {
      TerminalIsFinal(Marked(s, ops[0].id, ops[0].mark, ops[0].db), ops[1..], id);
    }
  }

  // ----------------------------------------------------------- in the database

  class GormStore {
    var rows: Store

    constructor ()
      ensures rows == map[]
    {
      rows := map[];
    }

    method Create(t: Task, db: Db) returns (error: Option<Error>)
      modifies this
      ensures db == BreaksBefore ==> error == Some(Broken) && rows == old(rows)
      ensures db != BreaksBefore && t.id in old(rows) ==> error == Some(Broken) && rows == old(rows)
      ensures db != BreaksBefore && t.id !in old(rows) && RequestTaken(old(rows), t) ==>
                error == Some(DuplicateRequest) && rows == old(rows)
      ensures db != BreaksBefore && t.id !in old(rows) && !RequestTaken(old(rows), t) ==>
                rows == old(rows)[t.id := t] && error == if db == Works then None else Some(Broken)
    {
      if db == BreaksBefore || t.id in rows { return Some(Broken); }
      var taken := FindTaken(rows, t);
      if taken { return Some(DuplicateRequest); }
      rows := rows[t.id := t];
      error := if db == Works then None else Some(Broken);
    }

    /** The row transaction shared by the Mark methods. */
    method UpdateStatus(taskID: string, m: Mark, db: Db) returns (task: Option<Task>, error: Option<Error>)
      modifies this
      ensures rows == Marked(old(rows), taskID, m, db)
      ensures Reply(task, error) == ReplyTo(false, old(rows), taskID, m, db)
      ensures taskID in old(rows) && db != BreaksBefore && old(rows)[taskID].status == Running && m.MarkSucceeded? ==>
                rows == old(rows)[taskID := old(rows)[taskID].(status := Succeeded, result := m.result, errorMessage := "")]
      ensures taskID in old(rows) && db != BreaksBefore && old(rows)[taskID].status == Running && m.MarkFailed? ==>
                rows == old(rows)[taskID := old(rows)[taskID].(status := Failed, errorMessage := m.message)]
    {
      var doneTask: Option<Task> := None;
      var failed: Option<Error> := None;
      if db == BreaksBefore {
        failed := Some(Broken);
      } else if taskID !in rows {
        failed := Some(NotFound);
      } else {
        var t := rows[taskID];
        match Judge(t, m) {
          case Refused(e) =>
            doneTask := Some(t);
            failed := Some(e);
          case Ok(next) =>
            rows := rows[taskID := next];
            doneTask := Some(next);
            if db == BreaksAfter { failed := Some(Broken); }
        }
      }
      if failed != None { return None, failed; }
      return doneTask, None;
    }

    method MarkRunning(taskID: string, db: Db) returns (task: Option<Task>, error: Option<Error>)
      modifies this
      ensures rows == Marked(old(rows), GoTrim(taskID), Mark.MarkRunning, db)
      ensures Reply(task, error) == ReplyTo(false, old(rows), GoTrim(taskID), Mark.MarkRunning, db)
    {
      task, error := UpdateStatus(GoTrim(taskID), Mark.MarkRunning, db);
    }

    method MarkSucceeded(taskID: string, result: string, db: Db) returns (task: Option<Task>, error: Option<Error>)
      modifies this
      ensures rows == Marked(old(rows), GoTrim(taskID), Mark.MarkSucceeded(result), db)
      ensures Reply(task, error) == ReplyTo(false, old(rows), GoTrim(taskID), Mark.MarkSucceeded(result), db)
    {
      task, error := UpdateStatus(GoTrim(taskID), Mark.MarkSucceeded(result), db);
    }

    method MarkFailed(taskID: string, message: string, db: Db) returns (task: Option<Task>, error: Option<Error>)
      modifies this
      ensures rows == Marked(old(rows), GoTrim(taskID), Mark.MarkFailed(message), db)
      ensures Reply(task, error) == ReplyTo(false, old(rows), GoTrim(taskID), Mark.MarkFailed(message), db)
    {
      task, error := UpdateStatus(GoTrim(taskID), Mark.MarkFailed(message), db);
    }
  }

  /** A scan for another task with the same non-empty request id. */
  method FindTaken(s: Store, t: Task) returns (taken: bool)
    ensures taken == RequestTaken(s, t)
    ensures taken <==> exists id :: id in s && s[id].requestId == t.requestId && t.requestId != "" && s[id].id != t.id
  {
    var todo := s.Keys;
    while todo != {}
      invariant todo <= s.Keys
      invariant forall id :: id in s.Keys - todo ==>
        !(s[id].requestId == t.requestId && s[id].requestId != "" && s[id].id != t.id)
    {
      var id :| id in todo;
      if s[id].requestId == t.requestId && s[id].requestId != "" && s[id].id != t.id { return true; }
      todo := todo - {id};
    }
    return false;
  }

  /** Some task with the request id, or None when there is none. */
  method FindByRequest(s: Store, requestId: string) returns (task: Option<Task>)
    ensures task.Some? ==> exists id :: id in s && s[id] == task.value && s[id].requestId == requestId
    ensures task.None? ==> forall id :: id in s ==> s[id].requestId != requestId
  {
    var todo := s.Keys;
    while todo != {}
      invariant todo <= s.Keys
      invariant forall id :: id in s.Keys - todo ==> s[id].requestId != requestId
    {
      var id :| id in todo;
      if s[id].requestId == requestId { return Some(s[id]); }
      todo := todo - {id};
    }
    return None;
  }

  /**
   * What a store's reply may look like: success carries the task; a failure that is not a refusal of
   * the status machine carries none.
   */
  predicate Wellformed(r: Reply) {
    && (r.error == None ==> r.task.Some?)
    && (r.error == Some(Broken) || r.error == Some(NotFound) || r.error == Some(DuplicateRequest) ==> r.task.None?)
  }

  lemma RepliesAreWellformed(leaky: bool, s: Store, id: string, m: Mark, db: Db)
    ensures Wellformed(ReplyTo(leaky, s, id, m, db))
  {
  }

  // ------------------------------------------------------------------ in memory

  class MemoryStore {
    var tasks: Store

    constructor ()
      ensures tasks == map[]
    {
      tasks := map[];
    }

    method Create(t: Task) returns (error: Option<Error>)
      modifies this
      ensures RequestTaken(old(tasks), t) ==> error == Some(DuplicateRequest) && tasks == old(tasks)
      ensures !RequestTaken(old(tasks), t) ==> error == None && tasks == old(tasks)[t.id := t]
    {
      var taken := FindTaken(tasks, t);
      if taken { return Some(DuplicateRequest); }
      tasks := tasks[t.id := t];
      return None;
    }

    method MarkRunning(taskID: string) returns (task: Option<Task>, error: Option<Error>)
      modifies this
      ensures tasks == Marked(old(tasks), taskID, Mark.MarkRunning, Works)
      ensures Reply(task, error) == ReplyTo(true, old(tasks), taskID, Mark.MarkRunning, Works)
    {
      if taskID !in tasks { return None, Some(NotFound); }
      var t := tasks[taskID];
      if t.status == Running { return Some(t), Some(AlreadyStarted); }
      if t.status == Succeeded || t.status == Failed { return Some(t), Some(AlreadyCompleted); }
      tasks := tasks[taskID := t.(status := Running)];
      return Some(tasks[taskID]), None;
    }

    method MarkSucceeded(taskID: string, result: string) returns (task: Option<Task>, error: Option<Error>)
      modifies this
      ensures tasks == Marked(old(tasks), taskID, Mark.MarkSucceeded(result), Works)
      ensures Reply(task, error) == ReplyTo(true, old(tasks), taskID, Mark.MarkSucceeded(result), Works)
      ensures taskID in old(tasks) && old(tasks)[taskID].status == Running ==>
                tasks == old(tasks)[taskID := old(tasks)[taskID].(status := Succeeded, result := result, errorMessage := "")]
    {
      if taskID !in tasks { return None, Some(NotFound); }
      var t := tasks[taskID];
      if t.status == Succeeded { return Some(t), None; }
      if t.status == Failed { return Some(t), Some(AlreadyCompleted); }
      if t.status != Running { return Some(t), Some(AlreadyStarted); }
      tasks := tasks[taskID := t.(status := Succeeded, result := result, errorMessage := "")];
      return Some(tasks[taskID]), None;
    }

    method MarkFailed(taskID: string, message: string) returns (task: Option<Task>, error: Option<Error>)
      modifies this
      ensures tasks == Marked(old(tasks), taskID, Mark.MarkFailed(message), Works)
      ensures Reply(task, error) == ReplyTo(true, old(tasks), taskID, Mark.MarkFailed(message), Works)
      ensures taskID in old(tasks) && old(tasks)[taskID].status == Running ==>
                tasks == old(tasks)[taskID := old(tasks)[taskID].(status := Failed, errorMessage := message)]
    {
      if taskID !in tasks { return None, Some(NotFound); }
      var t := tasks[taskID];
      if t.status == Failed { return Some(t), None; }
      if t.status == Succeeded { return Some(t), Some(AlreadyCompleted); }
      if t.status != Running { return Some(t), Some(AlreadyStarted); }
      tasks := tasks[taskID := t.(status := Failed, errorMessage := message)];
      return Some(tasks[taskID]), None;
    }
  }
}
