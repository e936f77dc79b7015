/** The insight entity with its guarded methods, and the repository that loads,
    mutates and merges it. Each method is tied to a row function of InsightRows. */
module InsightRepository {
  import opened Wrappers
  import opened InsightRows
  import Aggregation

  class Insight {
    const id: InsightId
    const user: UserId
    var status: Status
    var content: Option<Content>
    var error: Option<string>
    var processingDeadline: Option<int>
    var retryCount: nat

    ghost function Snapshot(): Row
      reads this
    {
      Row(user, status, content, error, retryCount, processingDeadline)
    }

    constructor FromRow(id: InsightId, row: Row)
      ensures this.id == id && Snapshot() == row
    {
      this.id := id;
      user := row.user;
      status := row.status;
      content := row.content;
      error := row.error;
      processingDeadline := row.deadline;
      retryCount := row.retryCount;
    }

    method MarkQueued() returns (ok: bool)
      modifies this`status
      ensures ok <==> old(status) == Pending
      ensures status == if ok then Queued else old(status)
      ensures ok <==> InsightRows.MarkQueued(old(Snapshot())).Ok?
      ensures Snapshot() == if ok then InsightRows.MarkQueued(old(Snapshot())).value else old(Snapshot())
    {
      if status != Pending { return false; }
      status := Queued;
      return true;
    }

    method MarkProcessing(deadline: Option<int>) returns (ok: bool)
      modifies this`status, this`processingDeadline
      ensures ok <==> old(status) == Queued
      ensures status == if ok then Processing else old(status)
      ensures processingDeadline == if ok && deadline.Some? then deadline else old(processingDeadline)
      ensures ok <==> InsightRows.MarkProcessing(old(Snapshot())).Ok?
      ensures Snapshot() == if !ok then old(Snapshot())
                            else var r := InsightRows.MarkProcessing(old(Snapshot())).value;
                                 if deadline.Some? then r.(deadline := deadline) else r
    {
      if status != Queued { return false; }
      status := Processing;
      if deadline.Some? { processingDeadline := deadline; }
      return true;
    }

    method MarkCompleted(c: Content) returns (ok: bool)
      modifies this`status, this`content
      ensures ok <==> old(status) == Processing && 1 <= c.answer.impactScore <= 10
      ensures status == if ok then Completed else old(status)
      ensures content == if ok then Some(c) else old(content)
      ensures ok <==> InsightRows.MarkCompleted(old(Snapshot()), c).Ok?
      ensures Snapshot() == if ok then InsightRows.MarkCompleted(old(Snapshot()), c).value else old(Snapshot())
    {
      if status != Processing { return false; }
      if !(1 <= c.answer.impactScore <= 10) { return false; }
      status := Completed;
      content := Some(c);
      return true;
    }

    method MarkFailed(err: string) returns (ok: bool)
      modifies this`status, this`error
      ensures ok <==> old(status) == Processing
      ensures status == if ok then Failed else old(status)
      ensures error == if ok then Some(err) else old(error)
      ensures ok <==> InsightRows.MarkFailed(old(Snapshot()), err).Ok?
      ensures Snapshot() == if ok then InsightRows.MarkFailed(old(Snapshot()), err).value else old(Snapshot())
    {
      if status != Processing { return false; }
      status := Failed;
      error := Some(err);
      return true;
    }
  }

  /** The second UPDATE of the reaper finds exactly the rows that had no retries left
      before the first one ran. */
  lemma {:induction false} SecondPassSees(t0: Table, t1: Table, maxRetries: nat, now: int)
    requires t1.Keys == t0.Keys
    requires forall id :: id in t0 ==>
               t1[id] == if id in Requeued(t0, maxRetries, now)
                         then t0[id].(status := Queued, retryCount := t0[id].retryCount + 1, deadline := None)
                         else t0[id]
    ensures Exhausted(t1, maxRetries, now) == Exhausted(t0, maxRetries, now)
  {
  }

  class Repository {
    var rows: Table

    constructor (rows: Table)
      ensures this.rows == rows
    {
      this.rows := rows;
    }

    /** `save`: merge the entity's fields into its row. */
    method Save(insight: Insight)
      modifies this
      ensures rows == old(rows)[insight.id := insight.Snapshot()]
    {
      rows := rows[insight.id := Row(insight.user, insight.status, insight.content, insight.error,
                                     insight.retryCount, insight.processingDeadline)];
    }

    /** `get_by_id`: the row under its owner's id only. */
    method GetById(id: InsightId, user: UserId) returns (insight: Insight?)
      ensures insight == null <==> !Visible(rows, id, user)
      ensures insight != null ==> fresh(insight) && insight.id == id && insight.Snapshot() == rows[id]
    {
      if id in rows && rows[id].user == user {
        insight := new Insight.FromRow(id, rows[id]);
      } else {
        insight := null;
      }
    }

    method ClaimForProcessing(id: InsightId, user: UserId, deadline: int) returns (r: Result<(), ClaimError>)
      modifies this
      ensures r == if !(id in old(rows) && old(rows)[id].user == user) then Err(NotFound)
                   else if old(rows)[id].status != Queued then Err(AlreadyTerminal(old(rows)[id].status))
                   else Ok(())
      ensures r.Err? ==> rows == old(rows)
      ensures r.Ok? ==>
                && rows.Keys == old(rows).Keys && (forall k :: k in rows && k != id ==> rows[k] == old(rows)[k])
                && rows[id].status == Processing && rows[id].deadline == Some(deadline)
                && rows[id].user == user && rows[id].retryCount == old(rows)[id].retryCount
                && rows[id].content == old(rows)[id].content && rows[id].error == old(rows)[id].error
      ensures match Claim(old(rows), id, user, deadline)
              case Ok(t) => r == Ok(()) && rows == t
              case Err(e) => r == Err(e) && rows == old(rows)
    {
      var insight := GetById(id, user);
      if insight == null { return Err(NotFound); }
      if insight.status != Queued { return Err(AlreadyTerminal(insight.status)); }
      var ok := insight.MarkProcessing(None);
      assert ok;
      insight.processingDeadline := Some(deadline);
      Save(insight);
      return Ok(());
    }

    /** The guarded part of `complete_insight`'s transaction; on false nothing was written. */
    method CompleteInsight(id: InsightId, user: UserId, c: Content) returns (ok: bool)
      modifies this
      ensures ok <==> id in old(rows) && old(rows)[id].user == user && old(rows)[id].status == Processing
                      && 1 <= c.answer.impactScore <= 10
      ensures ok ==>
                && rows.Keys == old(rows).Keys && (forall k :: k in rows && k != id ==> rows[k] == old(rows)[k])
                && rows[id].status == Completed && rows[id].content == Some(c) && rows[id].user == user
                && rows[id].retryCount == old(rows)[id].retryCount && rows[id].error == old(rows)[id].error
      ensures !ok ==> rows == old(rows)
      ensures ok <==> Complete(old(rows), id, user, c).Some?
      ensures rows == if ok then Complete(old(rows), id, user, c).value else old(rows)
    {
      var row := GetById(id, user);
      if row == null { return false; }
      ok := row.MarkCompleted(c);
      if ok { Save(row); }
    }

    /** The whole of it: the period's rows are aggregated in the same transaction, and a
        completed row keeps the AI's answer beside exactly that snapshot. */
    method CompleteWithSnapshot(id: InsightId, user: UserId, answer: Answer, quality: Quality, now: int,
                                periodRows: seq<Aggregation.Row>)
      returns (ok: bool, c: Content)
      modifies this
      ensures c == Content(answer, quality, now, c.budget) && Aggregation.IsSnapshot(periodRows, c.budget)
      ensures ok <==> id in old(rows) && old(rows)[id].user == user && old(rows)[id].status == Processing
                      && 1 <= answer.impactScore <= 10
      ensures ok ==>
                && rows.Keys == old(rows).Keys && (forall k :: k in rows && k != id ==> rows[k] == old(rows)[k])
                && rows[id].status == Completed && rows[id].user == user
                && rows[id].content.Some? && rows[id].content.value.answer == answer
                && rows[id].content.value.quality == quality && rows[id].content.value.generatedAt == now
                && Aggregation.IsSnapshot(periodRows, rows[id].content.value.budget)
      ensures !ok ==> rows == old(rows)
      ensures ok <==> Complete(old(rows), id, user, c).Some?
      ensures rows == if ok then Complete(old(rows), id, user, c).value else old(rows)
    {
      var budget := Aggregation.AggregateRows(periodRows);
      c := Content(answer, quality, now, budget);
      ok := CompleteInsight(id, user, c);
    }

    /** The body of `record_failure`: best effort. */
    method RecordInsightFailure(id: InsightId, user: UserId, err: string)
      modifies this
      ensures rows.Keys == old(rows).Keys
      ensures forall k :: k in rows ==>
                if k == id && old(rows)[k].user == user && old(rows)[k].status == Processing
                then rows[k] == old(rows)[k].(status := Failed, error := Some(err))
                else rows[k] == old(rows)[k]
      ensures rows == RecordFailure(old(rows), id, user, err)
    {
      var row := GetById(id, user);
      if row == null { return; }
      var ok := row.MarkFailed(err);
      if ok { Save(row); }
    }

    /** Two UPDATE passes in one transaction, each guarded by its own WHERE clause.
        They amount to one simultaneous update, because a row requeued by the
        first pass no longer matches the second. */
    method ReapExpiredProcessing(maxRetries: int, now: int) returns (r: Result<(set<InsightId>, nat), ()>)
      modifies this
      ensures r.Err? <==> maxRetries < 1
      ensures r.Err? ==> rows == old(rows)
      ensures r.Ok? ==>
                && rows.Keys == old(rows).Keys
                && (forall id :: id in rows ==>
                      var was := old(rows)[id];
                      if was.status != Processing || was.deadline == None || was.deadline.value >= now
                      then rows[id] == was
                      else if was.retryCount < maxRetries
                      then rows[id] == was.(status := Queued, retryCount := was.retryCount + 1, deadline := None)
                      else rows[id] == was.(status := Failed, error := Some("max retries exceeded")))
                && r.value.0
                   == (set id | id in old(rows) && old(rows)[id].status == Processing && rows[id].status == Queued)
                && r.value.1
                   == |set id | id in old(rows) && old(rows)[id].status == Processing && rows[id].status == Failed|
      ensures r.Ok? ==>
                && rows == Reap(old(rows), maxRetries, now)
                && r.value.0 == Requeued(old(rows), maxRetries, now)
                && r.value.1 == |Exhausted(old(rows), maxRetries, now)|
    {
      if maxRetries < 1 { return Err(()); }
      var t0 := rows;
      var requeued := Requeued(t0, maxRetries, now);
      rows := map id | id in t0 :: if id in requeued
                                   then t0[id].(status := Queued, retryCount := t0[id].retryCount + 1, deadline := None)
                                   else t0[id];
      var t1 := rows;
      var exhausted := Exhausted(t1, maxRetries, now);
      SecondPassSees(t0, t1, maxRetries, now);
      rows := map id | id in t1 :: if id in exhausted
                                   then t1[id].(status := Failed, error := Some(MAX_RETRIES_EXCEEDED))
                                   else t1[id];
      assert rows == Reap(t0, maxRetries, now);
      ReapMeans(t0, maxRetries, now);
      return Ok((requeued, |exhausted|));
    }
  }
}
