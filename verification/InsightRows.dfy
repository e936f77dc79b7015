/** The insight table: one row, the entity's status guards, and the row-level
    transitions of the repository and of the worker's three transactions. */
module InsightRows {
  import opened Wrappers
  import Aggregation

  type InsightId = nat
  type UserId = nat

  datatype Status = Pending | Queued | Processing | Completed | Failed

  datatype Quality = FullContext | PartialContext | NoContext

  /** What the AI port answers. */
  datatype Answer = Answer(title: string, description: string, impactScore: int)

  /** What a completed row holds: the answer, how good its context was, when it was
      generated, and the period's totals at that moment. */
  datatype Content = Content(
    answer: Answer,
    quality: Quality,
    generatedAt: int,
    budget: Option<seq<Aggregation.CurrencyTotals>>)

  datatype Row = Row(
    user: UserId,
    status: Status,
    content: Option<Content>,
    error: Option<string>,
    retryCount: nat,
    deadline: Option<int>)

  type Table = map<InsightId, Row>

  const MAX_RETRIES_EXCEEDED: string := "max retries exceeded"

  predicate Terminal(r: Row) {
    r.status == Completed || r.status == Failed
  }

  // ---------- entity guards ----------

  datatype GuardError = BadStatus(status: Status) | BadImpactScore(score: int)

  function MarkQueued(r: Row): Result<Row, GuardError> {
    if r.status != Pending then Err(BadStatus(r.status)) else Ok(r.(status := Queued))
  }

  function MarkProcessing(r: Row): Result<Row, GuardError> {
    if r.status != Queued then Err(BadStatus(r.status)) else Ok(r.(status := Processing))
  }

  function MarkCompleted(r: Row, c: Content): Result<Row, GuardError> {
    if r.status != Processing then Err(BadStatus(r.status))
    else if !(1 <= c.answer.impactScore <= 10) then Err(BadImpactScore(c.answer.impactScore))
    else Ok(r.(status := Completed, content := Some(c)))
  }

  function MarkFailed(r: Row, error: string): Result<Row, GuardError> {
    if r.status != Processing then Err(BadStatus(r.status))
    else Ok(r.(status := Failed, error := Some(error)))
  }

  // ---------- repository transactions ----------

  datatype ClaimError = NotFound | AlreadyTerminal(status: Status)

  /** A row is visible to a transaction only under its owner's id. */
  predicate Visible(t: Table, id: InsightId, user: UserId) {
    id in t && t[id].user == user
  }

  function Claim(t: Table, id: InsightId, user: UserId, deadline: int): Result<Table, ClaimError> {
    if !Visible(t, id, user) then Err(NotFound)
    else if t[id].status != Queued then Err(AlreadyTerminal(t[id].status))
    else Ok(t[id := t[id].(status := Processing, deadline := Some(deadline))])
  }

  /** The completing transaction; None when it raises and rolls back. */
  function Complete(t: Table, id: InsightId, user: UserId, c: Content): Option<Table> {
    if !Visible(t, id, user) then None
    else match MarkCompleted(t[id], c)
      case Ok(r) => Some(t[id := r])
      case Err(_) => None
  }

  /** The failure-recording transaction: a refused guard is logged and swallowed. */
  function RecordFailure(t: Table, id: InsightId, user: UserId, error: string): Table {
    if !Visible(t, id, user) then t
    else match MarkFailed(t[id], error)
      case Ok(r) => t[id := r]
      case Err(_) => t
  }

  predicate Expired(r: Row, now: int) {
    r.status == Processing && r.deadline.Some? && r.deadline.value < now
  }

  function ReapRow(r: Row, maxRetries: nat, now: int): Row {
    if !Expired(r, now) then r
    else if r.retryCount < maxRetries then
      r.(status := Queued, retryCount := r.retryCount + 1, deadline := None)
    else
      r.(status := Failed, error := Some(MAX_RETRIES_EXCEEDED))
  }

  function Reap(t: Table, maxRetries: nat, now: int): Table {
    map id | id in t :: ReapRow(t[id], maxRetries, now)
  }

  function Requeued(t: Table, maxRetries: nat, now: int): set<InsightId> {
    set id | id in t && Expired(t[id], now) && t[id].retryCount < maxRetries
  }

  function Exhausted(t: Table, maxRetries: nat, now: int): set<InsightId> {
    set id | id in t && Expired(t[id], now) && t[id].retryCount >= maxRetries
  }

  // ---------- what every transition keeps ----------

  /** What is left of a row's life: each status change costs exactly one unit,
      because a requeue spends a retry (two units) and regains one rank. */
  function Budget(r: Row, maxRetries: nat): int {
    2 * (maxRetries - r.retryCount) +
    match r.status
    case Pending => 3
    case Queued => 2
    case Processing => 1
    case Completed => 0
    case Failed => 0
  }

  /** A single update of a row: nothing but the status, or one legal move. */
  predicate LegalMove(before: Row, after: Row, maxRetries: nat) {
    && after.user == before.user
    && (Terminal(before) ==> after == before)
    && (after.status == before.status ==> after == before)
    && (after.status != before.status ==>
          || (before.status == Queued && after.status == Processing && after.retryCount == before.retryCount
              && after.deadline.Some?)
          || (before.status == Processing && after.status == Queued && after.retryCount == before.retryCount + 1
              && before.retryCount < maxRetries)
          || (before.status == Processing && Terminal(after) && after.retryCount == before.retryCount))
    && (after.status != before.status ==> after.content == before.content || after.status == Completed)
    && (after.status != before.status ==> after.error == before.error || after.status == Failed)
  }

  /** Every transaction touches rows only by legal moves and deletes none. */
  predicate LegalUpdate(before: Table, after: Table, maxRetries: nat) {
    && before.Keys == after.Keys
    && forall id :: id in before ==> LegalMove(before[id], after[id], maxRetries)
  }

  lemma {:induction false} TransactionsAreLegal(t: Table, id: InsightId, user: UserId, deadline: int, c: Content,
      error: string, maxRetries: nat, now: int)
    ensures Claim(t, id, user, deadline).Ok? ==> LegalUpdate(t, Claim(t, id, user, deadline).value, maxRetries)
    ensures Complete(t, id, user, c).Some? ==> LegalUpdate(t, Complete(t, id, user, c).value, maxRetries)
    ensures LegalUpdate(t, RecordFailure(t, id, user, error), maxRetries)
    ensures LegalUpdate(t, Reap(t, maxRetries, now), maxRetries)
  {
    assert forall k :: k in t ==> LegalMove(t[k], t[k], maxRetries);
    forall k | k in t
      ensures LegalMove(t[k], ReapRow(t[k], maxRetries, now), maxRetries)
    {
    }
  }

  /** A legal move that changes the status spends budget, one that does not is no move. */
  lemma {:induction false} LegalMoveSpends(before: Row, after: Row, maxRetries: nat)
    requires LegalMove(before, after, maxRetries)
    requires before.retryCount <= maxRetries
    ensures after.retryCount <= maxRetries
    ensures before == after || 0 <= Budget(after, maxRetries) < Budget(before, maxRetries)
  {
  }

  /** After a tick nobody holds an expired lease, and exactly the requeued rows gained a retry. */
  lemma {:induction false} ReapClearsExpired(t: Table, maxRetries: nat, now: int, id: InsightId)
    requires id in t
    ensures !Expired(Reap(t, maxRetries, now)[id], now)
    ensures id in Requeued(t, maxRetries, now) <==> Reap(t, maxRetries, now)[id].retryCount == t[id].retryCount + 1
    ensures id in Exhausted(t, maxRetries, now) <==>
              t[id].status == Processing && Reap(t, maxRetries, now)[id].status == Failed
    ensures t[id] == Reap(t, maxRetries, now)[id] <==>
              id !in Requeued(t, maxRetries, now) + Exhausted(t, maxRetries, now)
  {
  }

  // ---------- the transactions in plain fields ----------

  /** Claiming takes exactly the owner's QUEUED row, and only its status and deadline change. */
  lemma {:induction false} ClaimMeans(t: Table, id: InsightId, user: UserId, deadline: int)
    ensures Claim(t, id, user, deadline).Ok? <==> id in t && t[id].user == user && t[id].status == Queued
    ensures Claim(t, id, user, deadline).Ok? ==>
              var r := t[id];
              Claim(t, id, user, deadline).value
              == t[id := Row(r.user, Processing, r.content, r.error, r.retryCount, Some(deadline))]
    ensures Claim(t, id, user, deadline).Err? ==>
              Claim(t, id, user, deadline).error
              == if id in t && t[id].user == user then AlreadyTerminal(t[id].status) else NotFound
  {
  }

  /** Completing takes exactly the owner's PROCESSING row and a score of 1 to 10, and stores the content. */
  lemma {:induction false} CompleteMeans(t: Table, id: InsightId, user: UserId, c: Content)
    ensures Complete(t, id, user, c).Some?
            <==> id in t && t[id].user == user && t[id].status == Processing && 1 <= c.answer.impactScore <= 10
    ensures Complete(t, id, user, c).Some? ==>
              var r := t[id];
              Complete(t, id, user, c).value
              == t[id := Row(r.user, Completed, Some(c), r.error, r.retryCount, r.deadline)]
  {
  }

  /** A failure is recorded on the owner's PROCESSING row and nowhere else. */
  lemma {:induction false} RecordFailureMeans(t: Table, id: InsightId, user: UserId, error: string)
    ensures RecordFailure(t, id, user, error)
            == if id in t && t[id].user == user && t[id].status == Processing
               then t[id := Row(user, Failed, t[id].content, Some(error), t[id].retryCount, t[id].deadline)]
               else t
  {
  }

  /** A tick leaves alone every lease that has not ended and every row without one; an ended
      lease costs a retry, or the insight once there are none left. */
  lemma {:induction false} ReapMeans(t: Table, maxRetries: nat, now: int)
    ensures Reap(t, maxRetries, now).Keys == t.Keys
    ensures forall id :: id in t ==>
              var r := t[id];
              Reap(t, maxRetries, now)[id]
              == if r.status != Processing || r.deadline == None || r.deadline.value >= now then r
                 else if r.retryCount < maxRetries then Row(r.user, Queued, r.content, r.error, r.retryCount + 1, None)
                 else Row(r.user, Failed, r.content, Some("max retries exceeded"), r.retryCount, r.deadline)
    ensures Requeued(t, maxRetries, now)
         == set id | id in t && t[id].status == Processing && Reap(t, maxRetries, now)[id].status == Queued
    ensures Exhausted(t, maxRetries, now)
         == set id | id in t && t[id].status == Processing && Reap(t, maxRetries, now)[id].status == Failed
  {
  }
}
