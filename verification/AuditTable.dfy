/**
  The audit event table: rows keyed by (task, sequence), as the primary key has it.

  An append is two steps, reading the head of the chain and inserting the next row.  The
  primary key is what makes a stale insert fail.
 */
module AuditTable {
  import opened Common
  import opened HashChain
  import opened AgentModels
  import Policy = AgentPolicy

  const ZERO_HASH := "0000000000000000000000000000000000000000000000000000000000000000"

  datatype AuditPayload =
    | TaskCreated
    | PlannerProposed(proposal: Proposal)
    | PlannerFailed
    | ApprovalResumed(proposal: Proposal)
    | ApprovalLogged(requestId: string, reference: string)
    | PolicyDecided(decision: Policy.PolicyDecision)
    | ApprovalRequired
    | ToolExecuted(call: ToolCall, result: ToolResult)
    | ResultEvaluated(evaluation: Evaluation)
    | RecoveryStopped(fingerprint: string, count: nat)
    | TaskFinished(finalSummary: string)
    | TaskPaused(reason: string)
    | BudgetPaused(iterationLimit: int)
    | OperatorPaused
    | OperatorResumed
    | TaskCancelled
    | TaskTimedOut

  datatype AuditBody = AuditBody(taskId: string, payload: AuditPayload, createdAt: int)

  type AuditEvent = Link<AuditBody>
  type AuditHash = Material<AuditBody> -> string
  /** The primary key; nothing in the table's schema keeps the sequence number positive. */
  datatype Key = Key(taskId: string, sequence: int)
  type EventTable = map<Key, AuditEvent>

  datatype Head = Head(sequence: nat, previous: Option<string>)

  /** `n` is the highest sequence number stored for the task, or zero. */
  ghost predicate IsHighest(keys: set<Key>, taskId: string, n: nat) {
    && (forall key :: key in keys && key.taskId == taskId ==> key.sequence <= n)
    && (n > 0 ==> Key(taskId, n) in keys)
  }

  /** Find the highest sequence number by looking at every row. */
  method FindHighest(table: EventTable, taskId: string) returns (n: nat)
    ensures IsHighest(table.Keys, taskId, n)
  {
    n := 0;
    var rest := table.Keys;
    while rest != {}
      invariant rest <= table.Keys
      invariant forall key :: key in table.Keys - rest && key.taskId == taskId ==> key.sequence <= n
      invariant n > 0 ==> Key(taskId, n) in table
    {
      var key :| key in rest;
      rest := rest - {key};
      if key.taskId == taskId && key.sequence > n {
        n := key.sequence;
      }
    }
  }

  lemma {:induction false} HighestExists(keys: set<Key>, taskId: string)
    ensures exists n: nat :: IsHighest(keys, taskId, n)
    decreases keys
  {
    if keys == {} {
      assert IsHighest(keys, taskId, 0);
    } else {
      var key :| key in keys;
      HighestExists(keys - {key}, taskId);
      var n: nat :| IsHighest(keys - {key}, taskId, n);
      assert IsHighest(keys, taskId, if key.taskId == taskId && key.sequence > n then key.sequence else n);
    }
  }

  ghost function Highest(table: EventTable, taskId: string): (n: nat)
    ensures IsHighest(table.Keys, taskId, n)
  {
    HighestExists(table.Keys, taskId);
    var n: nat :| IsHighest(table.Keys, taskId, n);
    n
  }

  /** The task's rows with sequence numbers 1..n, in order. */
  function RowsUpTo(table: EventTable, taskId: string, n: nat): seq<AuditEvent> {
    if n == 0 then []
    else RowsUpTo(table, taskId, n - 1) + if Key(taskId, n) in table then [table[Key(taskId, n)]] else []
  }

  /** No row of the task is numbered below one; a row that is cannot be read as an event. */
  ghost predicate Readable(table: EventTable, taskId: string) {
    forall key :: key in table && key.taskId == taskId ==> key.sequence >= 1
  }

  /** Look at every row for one that cannot be read. */
  method CheckReadable(table: EventTable, taskId: string) returns (ok: bool)
    ensures ok <==> Readable(table, taskId)
  {
    var rest := table.Keys;
    while rest != {}
      invariant rest <= table.Keys
      invariant forall key :: key in table.Keys - rest && key.taskId == taskId ==> key.sequence >= 1
    {
      var key :| key in rest;
      if key.taskId == taskId && key.sequence < 1 {
        return false;
      }
      rest := rest - {key};
    }
    ok := true;
  }

  /** All rows of a task ordered by sequence number, as long as they can be read. */
  ghost function Rows(table: EventTable, taskId: string): seq<AuditEvent> {
    RowsUpTo(table, taskId, Highest(table, taskId))
  }

  /** What the first step of an append reads. */
  ghost function HeadOf(table: EventTable, taskId: string): Head {
    var n := Highest(table, taskId);
    Head(n + 1, if n == 0 then Some(ZERO_HASH) else Some(table[Key(taskId, n)].digest))
  }

  function NextRow(hash: AuditHash, head: Head, body: AuditBody): AuditEvent {
    Seal(hash, Material(head.sequence, head.previous, body))
  }

  /** The second step of an append: refused when the key is already taken. */
  function Insert(table: EventTable, row: AuditEvent): Option<EventTable>
  {
    var key := Key(row.body.taskId, row.sequence);
    if key in table then None else Some(table[key := row])
  }

  /** Every row is sealed, stored under its own key, and names the digest of the row before it. */
  ghost predicate RowIsIntact(hash: AuditHash, table: EventTable, key: Key) {
    key in table ==>
      var row := table[key];
      && key.sequence >= 1 && row.sequence == key.sequence && row.body.taskId == key.taskId && Sealed(hash, row)
      && HeadIsCurrent(table, key.taskId, Head(key.sequence, row.previous))
  }

  /** The head names the digest of the row before it, or the zero hash. */
  ghost predicate HeadIsCurrent(table: EventTable, taskId: string, head: Head) {
    && head.sequence >= 1
    && if head.sequence == 1 then head.previous == Some(ZERO_HASH)
       else
         var before := Key(taskId, head.sequence - 1);
         before in table && head.previous == Some(table[before].digest)
  }

  ghost predicate Intact(hash: AuditHash, table: EventTable) {
    forall key {:trigger RowIsIntact(hash, table, key)} :: RowIsIntact(hash, table, key)
  }

  /** Nothing between 1 and a stored row is missing. */
  lemma {:induction false} NoGaps(hash: AuditHash, table: EventTable, taskId: string, n: nat, k: nat)
    requires Intact(hash, table) && Key(taskId, n) in table && 1 <= k <= n
    ensures Key(taskId, k) in table
    decreases n - k
  {
    if k < n {
      NoGaps(hash, table, taskId, n, k + 1);
      assert RowIsIntact(hash, table, Key(taskId, k + 1));
    }
  }

  lemma {:induction false} IntactRowsUpTo(hash: AuditHash, table: EventTable, taskId: string, n: nat)
    requires Intact(hash, table) && (n > 0 ==> Key(taskId, n) in table)
    ensures var rows := RowsUpTo(table, taskId, n);
            && |rows| == n
            && Contiguous(hash, Some(ZERO_HASH), rows)
            && (forall i :: 0 <= i < n ==> rows[i].body.taskId == taskId)
            && (n > 0 ==> rows[n - 1] == table[Key(taskId, n)])
  {
    if n > 0 {
      assert RowIsIntact(hash, table, Key(taskId, n));
      IntactRowsUpTo(hash, table, taskId, n - 1);
      ChainedExtends(hash, Some(ZERO_HASH), RowsUpTo(table, taskId, n - 1), table[Key(taskId, n)]);
    }
  }

  /** What is stored intact passes the whole verification, for every task. */
  lemma IntactRowsVerify(hash: AuditHash, table: EventTable, taskId: string)
    requires Intact(hash, table)
    ensures Contiguous(hash, Some(ZERO_HASH), Rows(table, taskId))
    ensures |Rows(table, taskId)| == Highest(table, taskId) && Readable(table, taskId)
    ensures HeadOf(table, taskId) == Head(|Rows(table, taskId)| + 1, Tip(Some(ZERO_HASH), Rows(table, taskId)))
  {
    forall key | key in table && key.taskId == taskId
      ensures key.sequence >= 1
    {
      assert RowIsIntact(hash, table, key);
    }
    IntactRowsUpTo(hash, table, taskId, Highest(table, taskId));
  }

  /** An insert whose head is current keeps the table intact, however stale the head is. */
  lemma InsertKeepsIntact(hash: AuditHash, table: EventTable, head: Head, body: AuditBody)
    requires Intact(hash, table) && HeadIsCurrent(table, body.taskId, head)
    ensures var after := Insert(table, NextRow(hash, head, body));
            after.Some? ==> Intact(hash, after.value)
  {
    var row := NextRow(hash, head, body);
    var after := Insert(table, row);
    if after.Some? {
      var key := Key(body.taskId, head.sequence);
      forall k
        ensures RowIsIntact(hash, after.value, k)
      {
        assert RowIsIntact(hash, table, k);
      }
    }
  }

  lemma {:induction false} RowsUpToUnchanged(table: EventTable, key: Key, row: AuditEvent, taskId: string, n: nat)
    requires key !in table && (key.taskId != taskId || n < key.sequence)
    ensures RowsUpTo(table[key := row], taskId, n) == RowsUpTo(table, taskId, n)
  {
    if n > 0 {
      RowsUpToUnchanged(table, key, row, taskId, n - 1);
    }
  }

  /** An uninterrupted append adds exactly one row at the end of its task's log. */
  lemma AppendExtendsRows(hash: AuditHash, table: EventTable, body: AuditBody, other: string)
    requires Intact(hash, table)
    ensures var head := HeadOf(table, body.taskId);
            var row := NextRow(hash, head, body);
            var after := Insert(table, row);
            && after.Some? && Intact(hash, after.value)
            && Rows(after.value, body.taskId) == Rows(table, body.taskId) + [row]
            && (other != body.taskId ==> Rows(after.value, other) == Rows(table, other))
  {
    var n := Highest(table, body.taskId);
    var head := HeadOf(table, body.taskId);
    var row := NextRow(hash, head, body);
    var key := Key(body.taskId, n + 1);
    assert key !in table;
    assert n > 0 ==> RowIsIntact(hash, table, Key(body.taskId, n));
    InsertKeepsIntact(hash, table, head, body);
    var after := table[key := row];
    assert IsHighest(after.Keys, body.taskId, n + 1);
    assert Highest(after, body.taskId) == n + 1;
    RowsUpToUnchanged(table, key, row, body.taskId, n);
    if other != body.taskId {
      assert IsHighest(after.Keys, other, Highest(table, other));
      assert Highest(after, other) == Highest(table, other);
      RowsUpToUnchanged(table, key, row, other, Highest(table, other));
    }
  }

  /**
    Tamper evidence: two stored logs of a task that both verify with the same final hash hold
    the same rows.  Only to tell an empty log from another one must the digest never be zero.
   */
  lemma FinalHashFixesLog(hash: AuditHash, s: EventTable, t: EventTable, taskId: string)
    requires Injective(hash)
    requires Contiguous(hash, Some(ZERO_HASH), Rows(s, taskId)) && Contiguous(hash, Some(ZERO_HASH), Rows(t, taskId))
    requires Tip(Some(ZERO_HASH), Rows(s, taskId)) == Tip(Some(ZERO_HASH), Rows(t, taskId))
    requires (Rows(s, taskId) == [] <==> Rows(t, taskId) == []) || forall m :: hash(m) != ZERO_HASH
    ensures Rows(s, taskId) == Rows(t, taskId)
  {
    if Rows(s, taskId) != [] && Rows(t, taskId) != [] {
      LastDigestFixesLedger(hash, Some(ZERO_HASH), Rows(s, taskId), Rows(t, taskId));
    } else {
      TipFixesChainOrEmpty(hash, Rows(s, taskId), Rows(t, taskId));
    }
  }

  lemma TipFixesChainOrEmpty(hash: AuditHash, xs: seq<AuditEvent>, ys: seq<AuditEvent>)
    requires Injective(hash) && (xs == [] || ys == [])
    requires Contiguous(hash, Some(ZERO_HASH), xs) && Contiguous(hash, Some(ZERO_HASH), ys)
    requires Tip(Some(ZERO_HASH), xs) == Tip(Some(ZERO_HASH), ys)
    requires (xs == [] <==> ys == []) || forall m :: hash(m) != ZERO_HASH
    ensures xs == ys
  {
    if !(xs == [] <==> ys == []) {
      TipFixesChain(hash, ZERO_HASH, xs, ys);
    }
  }
}
