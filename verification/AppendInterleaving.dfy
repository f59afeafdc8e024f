/**
  Concurrent appenders on the audit event table.

  Any number of actors append to any number of tasks.  Reading the head and inserting the
  row are separate steps, interleaved in any order.
 */
module AppendInterleaving {
  import opened Common
  import opened HashChain
  import opened AuditTable

  datatype Pending = Pending(taskId: string, head: Head)

  ghost predicate PendingIsCurrent(table: EventTable, p: Pending) {
    HeadIsCurrent(table, p.taskId, p.head)
  }

  datatype System = System(table: EventTable, pending: map<nat, Pending>)

  datatype Step = ReadHead(actor: nat, taskId: string) | InsertRow(actor: nat, payload: AuditPayload, createdAt: int)

  ghost function Apply(hash: AuditHash, s: System, step: Step): System {
    match step
    case ReadHead(actor, taskId) => s.(pending := s.pending[actor := Pending(taskId, HeadOf(s.table, taskId))])
    case InsertRow(actor, payload, createdAt) =>
      if actor !in s.pending then s
      else
        var p := s.pending[actor];
        var after := Insert(s.table, NextRow(hash, p.head, AuditBody(p.taskId, payload, createdAt)));
        System(if after.Some? then after.value else s.table, s.pending - {actor})
  }

  ghost function Run(hash: AuditHash, steps: seq<Step>): System {
    if steps == [] then System(map[], map[]) else Apply(hash, Run(hash, steps[..|steps| - 1]), steps[|steps| - 1])
  }

  ghost predicate Inv(hash: AuditHash, s: System) {
    Intact(hash, s.table) && forall actor :: actor in s.pending ==> PendingIsCurrent(s.table, s.pending[actor])
  }

  lemma ReadHeadIsCurrent(hash: AuditHash, table: EventTable, taskId: string)
    requires Intact(hash, table)
    ensures HeadIsCurrent(table, taskId, HeadOf(table, taskId))
  {
    var n := Highest(table, taskId);
    if n > 0 {
      assert RowIsIntact(hash, table, Key(taskId, n));
    }
  }

  lemma StepKeepsInv(hash: AuditHash, s: System, step: Step)
    requires Inv(hash, s)
    ensures Inv(hash, Apply(hash, s, step))
  {
    match step
    case ReadHead(actor, taskId) => ReadHeadIsCurrent(hash, s.table, taskId);
    case InsertRow(actor, payload, createdAt) =>
      if actor in s.pending {
        var p := s.pending[actor];
        var body := AuditBody(p.taskId, payload, createdAt);
        assert PendingIsCurrent(s.table, p);
        InsertKeepsIntact(hash, s.table, p.head, body);
        var s' := Apply(hash, s, step);
        forall a | a in s'.pending
          ensures PendingIsCurrent(s'.table, s'.pending[a])
        {
          HeadStaysCurrent(hash, s.table, s.pending[a], p, body);
        }
      }
  }

  /** An insert by one actor never invalidates what another actor has read. */
  lemma HeadStaysCurrent(hash: AuditHash, table: EventTable, other: Pending, p: Pending, body: AuditBody)
    requires PendingIsCurrent(table, other) && PendingIsCurrent(table, p) && body.taskId == p.taskId
    ensures var after := Insert(table, NextRow(hash, p.head, body));
            after.Some? ==> PendingIsCurrent(after.value, other)
  {
  }

  /** No interleaving breaks a chain: what any run stored passes verification for every task. */
  lemma {:induction false} EveryRunVerifies(hash: AuditHash, steps: seq<Step>, taskId: string)
    ensures Inv(hash, Run(hash, steps))
    ensures Readable(Run(hash, steps).table, taskId)
    ensures Contiguous(hash, Some(ZERO_HASH), Rows(Run(hash, steps).table, taskId))
  {
    if steps != [] {
      EveryRunVerifies(hash, steps[..|steps| - 1], taskId);
      StepKeepsInv(hash, Run(hash, steps[..|steps| - 1]), steps[|steps| - 1]);
    }
    IntactRowsVerify(hash, Run(hash, steps).table, taskId);
  }

  /**
    In any run an insert succeeds exactly when its head is still the head of the table, so of
    several actors that read the same head exactly the first one to insert is stored.
   */
  lemma StaleInsertsFail(hash: AuditHash, s: System, actor: nat, payload: AuditPayload, createdAt: int)
    requires Inv(hash, s) && actor in s.pending
    ensures var p := s.pending[actor];
            var s' := Apply(hash, s, InsertRow(actor, payload, createdAt));
            if p.head == HeadOf(s.table, p.taskId) then
              Rows(s'.table, p.taskId)
                == Rows(s.table, p.taskId) + [NextRow(hash, p.head, AuditBody(p.taskId, payload, createdAt))]
            else s'.table == s.table
  {
    var p := s.pending[actor];
    var n := Highest(s.table, p.taskId);
    assert PendingIsCurrent(s.table, p);
    if p.head == HeadOf(s.table, p.taskId) {
      AppendExtendsRows(hash, s.table, AuditBody(p.taskId, payload, createdAt), p.taskId);
    } else {
      if p.head.sequence == n + 1 {
        assert false;
      }
      assert p.head.sequence <= n;
      NoGaps(hash, s.table, p.taskId, n, p.head.sequence);
    }
  }
}
