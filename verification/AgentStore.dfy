/** The agent store: task rows with optimistic revisions, and the audit event table. */
module AgentStore {
  import opened Common
  import opened HashChain
  import opened AgentModels
  import opened AuditTable
  import opened AuditReplay

  ghost predicate BooksAreReplays(table: EventTable, ids: set<string>, books: map<string, Book>) {
    books.Keys == ids && forall id {:trigger Log(table, id)} :: id in ids ==> books[id] == Replay(Log(table, id))
  }

  lemma LogFollows(before: EventTable, after: EventTable, taskId: string, row: AuditEvent)
    requires Rows(after, taskId) == Rows(before, taskId) + [row]
    ensures Log(after, taskId) == Log(before, taskId) + [row.body.payload]
  {
  }

  lemma SameRowsSameLog(before: EventTable, after: EventTable, taskId: string)
    requires Rows(after, taskId) == Rows(before, taskId)
    ensures Log(after, taskId) == Log(before, taskId)
  {
  }

  /** One more row in one log is one more step in that log's book, and in no other. */
  lemma BooksFollow(before: EventTable, after: EventTable, ids: set<string>, books: map<string, Book>,
                    taskId: string, row: AuditEvent)
    requires BooksAreReplays(before, ids, books) && taskId in ids
    requires Rows(after, taskId) == Rows(before, taskId) + [row]
    requires forall other :: other != taskId ==> Rows(after, other) == Rows(before, other)
    ensures BooksAreReplays(after, ids, books[taskId := Record(books[taskId], row.body.payload)])
  {
    LogFollows(before, after, taskId, row);
    ReplayExtends(Log(before, taskId), row.body.payload);
    forall other | other in ids && other != taskId
      ensures books[other] == Replay(Log(after, other))
    {
      SameRowsSameLog(before, after, other);
    }
  }

  class AgentStore {
    const hash: AuditHash
    var tasks: map<string, AgentTask>
    var events: EventTable
    /** What each task's log replays to. */
    ghost var books: map<string, Book>

    /** Rows are keyed by their own task, and events belong to existing tasks. */
    ghost predicate Valid()
      reads this
    {
      && Intact(hash, events)
      && (forall id :: id in tasks ==> tasks[id].taskId == id)
      && (forall id {:trigger Rows(events, id)} :: id !in tasks ==> Rows(events, id) == [])
      && BooksAreReplays(events, tasks.Keys, books)
    }

    constructor (hash: AuditHash)
      ensures this.hash == hash
      ensures Valid() && tasks == map[] && events == map[]
    {
      this.hash := hash;
      tasks, events, books := map[], map[], map[];
      new;
      forall id
        ensures Rows(events, id) == []
      {
        assert Highest(events, id) == 0;
      }
    }

    method CreateTask(task: AgentTask) returns (ok: bool)
      requires Valid()
      modifies this`tasks, this`books
      ensures Valid()
      ensures ok <==> task.taskId !in old(tasks)
      ensures tasks == if ok then old(tasks)[task.taskId := task] else old(tasks)
      ensures books == if ok then old(books)[task.taskId := EMPTY_BOOK] else old(books)
    {
      if task.taskId in tasks {
        return false;
      }
      assert Rows(events, task.taskId) == [] && Log(events, task.taskId) == [];
      tasks := tasks[task.taskId := task];
      books := books[task.taskId := EMPTY_BOOK];
      ok := true;
    }

    method GetTask(taskId: string) returns (task: Option<AgentTask>)
      ensures task == if taskId in tasks then Some(tasks[taskId]) else None
    {
      task := if taskId in tasks then Some(tasks[taskId]) else None;
    }

    /** Guarded update: the stored revision must be the expected one and the candidate a valid update of it. */
    method SaveTask(task: AgentTask, expectedRevision: nat) returns (ok: bool)
      requires Valid()
      modifies this`tasks
      ensures Valid()
      ensures ok <==> && task.taskId in old(tasks)
                      && old(tasks)[task.taskId].revision == expectedRevision
                      && ValidUpdate(old(tasks)[task.taskId], task)
      ensures tasks == if ok then old(tasks)[task.taskId := task] else old(tasks)
    {
      if task.taskId !in tasks || tasks[task.taskId].revision != expectedRevision {
        return false;
      }
      var previous := tasks[task.taskId];
      if !ValidUpdate(previous, task) {
        return false;
      }
      if tasks[task.taskId].revision == expectedRevision {
        tasks := tasks[task.taskId := task];
      }
      ok := true;
    }

    /** Append one event: read the head of the task's chain, then insert the next row. */
    method AppendEvent(taskId: string, payload: AuditPayload, createdAt: int) returns (event: Option<AuditEvent>)
      requires Valid()
      modifies this`events, this`books
      ensures Valid()
      ensures event.Some? <==> taskId in tasks
      ensures event.None? ==> events == old(events) && books == old(books)
      ensures event.Some? ==>
        && event.value.body == AuditBody(taskId, payload, createdAt)
        && Rows(events, taskId) == old(Rows(events, taskId)) + [event.value]
        && books == old(books)[taskId := Record(old(books)[taskId], payload)]
      ensures forall other :: other != taskId ==> Rows(events, other) == old(Rows(events, other))
    {
      if taskId !in tasks {
        return None;
      }
      var n := FindHighest(events, taskId);
      assert n == Highest(events, taskId);
      var head := Head(n + 1, if n == 0 then Some(ZERO_HASH) else Some(events[Key(taskId, n)].digest));
      var row := NextRow(hash, head, AuditBody(taskId, payload, createdAt));
      var after := Insert(events, row);
      forall other
        ensures after.Some? && Intact(hash, after.value)
        ensures Rows(after.value, taskId) == Rows(events, taskId) + [row]
        ensures other != taskId ==> Rows(after.value, other) == Rows(events, other)
      {
        AppendExtendsRows(hash, events, AuditBody(taskId, payload, createdAt), other);
      }
      BooksFollow(events, after.value, tasks.Keys, books, taskId, row);
      events := after.value;
      books := books[taskId := Record(books[taskId], payload)];
      event := Some(row);
    }

    /** All rows of a task in order; a row numbered below one makes the whole answer fail. */
    method ListEvents(taskId: string) returns (listed: Option<seq<AuditEvent>>)
      ensures listed.Some? <==> Readable(events, taskId)
      ensures listed.Some? ==> listed.value == Rows(events, taskId)
    {
      var readable := CheckReadable(events, taskId);
      if !readable {
        return None;
      }
      var n := FindHighest(events, taskId);
      assert n == Highest(events, taskId);
      var rows: seq<AuditEvent> := [];
      for k := 1 to n + 1
        invariant rows == RowsUpTo(events, taskId, k - 1)
      {
        if Key(taskId, k) in events {
          rows := rows + [events[Key(taskId, k)]];
        }
      }
      listed := Some(rows);
    }

    /** The last digest when the whole log verifies, nothing when any row was altered; holds of any table. */
    method VerifyIntegrity(taskId: string) returns (finalHash: Option<string>)
      ensures finalHash.Some? <==>
        Readable(events, taskId) && Contiguous(hash, Some(ZERO_HASH), Rows(events, taskId))
      ensures finalHash.Some? ==> finalHash == Tip(Some(ZERO_HASH), Rows(events, taskId))
    {
      var listed := ListEvents(taskId);
      if listed.None? {
        return None;
      }
      var rows := listed.value;
      var previous := Some(ZERO_HASH);
      for i := 0 to |rows|
        invariant previous == Tip(Some(ZERO_HASH), rows[..i])
        invariant Contiguous(hash, Some(ZERO_HASH), rows[..i])
      {
        ContiguousStep(hash, Some(ZERO_HASH), rows, i);
        BrokenPrefixBreaks(hash, Some(ZERO_HASH), rows, i + 1);
        if rows[i].sequence != i + 1 || rows[i].previous != previous || !Sealed(hash, rows[i]) {
          return None;
        }
        previous := Some(rows[i].digest);
      }
      assert rows[..|rows|] == rows;
      finalHash := previous;
    }
  }
}
