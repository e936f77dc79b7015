/** The two transactions that put an insight in QUEUED and its event in the outbox
    together: a user's request and the reaper's tick. */
module Queueing {
  import opened Wrappers
  import opened InsightRows
  import opened Outbox
  import opened Delivery
  import opened InsightRepository

  class OutboxRepository {
    var rows: OutboxTable
    var nextId: EventId

    /** Generated ids are above every id in use. */
    ghost predicate Valid()
      reads this
    {
      forall e :: e in rows ==> e < nextId
    }

    method Append(eventType: string, insight: InsightId, user: UserId) returns (e: EventId)
      requires Valid()
      modifies this
      ensures Valid() && e == old(nextId) && e !in old(rows) && nextId == old(nextId) + 1
      ensures rows == old(rows)[e := OutboxRow(Message(e, eventType, insight, user), PENDING, 0, None)]
    {
      e := nextId;
      rows := rows[e := OutboxRow(Message(e, eventType, insight, user), PENDING, 0, None)];
      nextId := nextId + 1;
    }
  }

  datatype RequestError =
    | QuotaExceeded(current: nat, limit: nat)
    | InsufficientTransactions(count: nat, minimum: nat)

  /** Refused when the month's quota is used up or, after that, for too few transactions;
      otherwise the QUEUED row and its PENDING event are written together, exactly as the
      protocol's request step writes them. */
  method RequestInsight(repo: Repository, outbox: OutboxRepository, id: InsightId, user: UserId,
                        requestedThisMonth: nat, limit: nat, transactionCount: nat, minTransactions: nat)
    returns (r: Result<EventId, RequestError>)
    requires outbox.Valid() && id !in repo.rows
    modifies repo, outbox
    ensures outbox.Valid()
    ensures requestedThisMonth >= limit ==> r == Err(QuotaExceeded(requestedThisMonth + 1, limit))
    ensures requestedThisMonth < limit && transactionCount < minTransactions ==>
              r == Err(InsufficientTransactions(transactionCount, minTransactions))
    ensures r.Ok? <==> requestedThisMonth < limit && transactionCount >= minTransactions
    ensures r.Err? ==> repo.rows == old(repo.rows) && outbox.rows == old(outbox.rows)
    ensures r.Ok? ==>
              && repo.rows == old(repo.rows)[id := Row(user, Queued, None, None, 0, None)]
              && outbox.rows
                 == old(outbox.rows)[r.value :=
                      OutboxRow(Message(r.value, "InsightRequested", id, user), PENDING, 0, None)]
    ensures r.Ok? ==>
              && r.value !in old(outbox.rows)
              && forall s: State :: s.insights == old(repo.rows) && s.outbox == old(outbox.rows) ==>
                   var s' := Requested(s, id, user, r.value);
                   s'.insights == repo.rows && s'.outbox == outbox.rows
  {
    if requestedThisMonth >= limit { return Err(QuotaExceeded(requestedThisMonth + 1, limit)); }
    if transactionCount < minTransactions { return Err(InsufficientTransactions(transactionCount, minTransactions)); }
    var insight := new Insight.FromRow(id, Row(user, Pending, None, None, 0, None));
    var ok := insight.MarkQueued();
    repo.Save(insight);
    var e := outbox.Append(INSIGHT_REQUESTED, id, user);
    return Ok(e);
  }

  /** What a tick has emitted so far, and the outbox that goes with it. */
  ghost predicate Emitted(t: Table, was: OutboxTable, rows: OutboxTable, emitted: map<InsightId, EventId>,
                          first: EventId, next: EventId)
  {
    && first <= next
    && emitted.Keys <= t.Keys
    && Injective(emitted)
    && (forall id :: id in emitted ==> first <= emitted[id] < next)
    && rows == was + NewRows(Appended(t, emitted))
  }

  lemma {:induction false} NewRowsGrow(m: map<EventId, Message>, e: EventId, msg: Message)
    ensures NewRows(m[e := msg]) == NewRows(m)[e := NewRow(msg)]
  {
  }

  lemma {:induction false} AppendedGrows(t: Table, emitted: map<InsightId, EventId>, id: InsightId, e: EventId)
    requires emitted.Keys <= t.Keys && Injective(emitted) && id in t && id !in emitted
    requires forall k :: k in emitted ==> emitted[k] != e
    ensures Injective(emitted[id := e])
    ensures Appended(t, emitted[id := e]) == Appended(t, emitted)[e := RequestedEvent(e, id, t[id].user)]
  {
    var m := emitted[id := e];
    assert m.Values == emitted.Values + {e} by {
      forall x ensures x in m.Values <==> x in emitted.Values || x == e {
        if x in emitted.Values {
          var k :| k in emitted && emitted[k] == x;
          assert m[k] == x;
        }
        if x == e { assert m[id] == x; }
      }
    }
    assert Source(m, e) == id;
    forall x | x in emitted.Values ensures Source(m, x) == Source(emitted, x) {
      assert m[Source(emitted, x)] == x;
    }
  }

  lemma {:induction false} UnionUpdate(a: OutboxTable, b: OutboxTable, e: EventId, r: OutboxRow)
    ensures a + b[e := r] == (a + b)[e := r]
  {
  }

  lemma {:induction false} EmittedGrows(t: Table, was: OutboxTable, rows: OutboxTable, emitted: map<InsightId, EventId>,
                     first: EventId, next: EventId, id: InsightId)
    requires Emitted(t, was, rows, emitted, first, next)
    requires id in t && id !in emitted
    ensures Emitted(t, was, rows[next := NewRow(RequestedEvent(next, id, t[id].user))], emitted[id := next],
                    first, next + 1)
  {
    AppendedGrows(t, emitted, id, next);
    NewRowsGrow(Appended(t, emitted), next, RequestedEvent(next, id, t[id].user));
    UnionUpdate(was, NewRows(Appended(t, emitted)), next, NewRow(RequestedEvent(next, id, t[id].user)));
  }

  lemma {:induction false} NothingEmitted(t: Table, was: OutboxTable, first: EventId)
    ensures Emitted(t, was, was, map[], first, first)
  {
    assert NewRows(Appended(t, map[])) == map[];
  }

  /** One new PENDING row per emitted event, addressed to its insight and owner; the old rows stay. */
  lemma {:induction false} EmittedMeans(t: Table, was: OutboxTable, rows: OutboxTable, emitted: map<InsightId, EventId>,
                     first: EventId, next: EventId)
    requires Emitted(t, was, rows, emitted, first, next) && forall e :: e in was ==> e < first
    ensures forall id :: id in emitted ==>
              && emitted[id] in rows && emitted[id] !in was
              && rows[emitted[id]]
                 == OutboxRow(Message(emitted[id], "InsightRequested", id, t[id].user), PENDING, 0, None)
    ensures forall e :: e in was ==> e in rows && rows[e] == was[e]
    ensures forall e :: e in rows && e !in was ==> e in emitted.Values
  {
    forall id | id in emitted
      ensures emitted[id] in rows && emitted[id] !in was
      ensures rows[emitted[id]]
           == OutboxRow(Message(emitted[id], "InsightRequested", id, t[id].user), PENDING, 0, None)
    {
      AppendedIsFor(t, emitted, id);
    }
  }

  lemma {:induction false} AppendedIsFor(t: Table, emitted: map<InsightId, EventId>, id: InsightId)
    requires emitted.Keys <= t.Keys && Injective(emitted) && id in emitted
    ensures emitted[id] in Appended(t, emitted)
    ensures Appended(t, emitted)[emitted[id]] == Message(emitted[id], "InsightRequested", id, t[id].user)
  {
    assert emitted[id] in emitted.Values && Source(emitted, emitted[id]) == id;
  }

  /** The loop over the requeued rows. */
  method EmitEach(t: Table, requeued: set<InsightId>, outbox: OutboxRepository)
      returns (emitted: map<InsightId, EventId>)
    requires outbox.Valid() && requeued <= t.Keys
    modifies outbox
    ensures outbox.Valid() && emitted.Keys == requeued && Injective(emitted)
    ensures Emitted(t, old(outbox.rows), outbox.rows, emitted, old(outbox.nextId), outbox.nextId)
  {
    ghost var was, first := outbox.rows, outbox.nextId;
    var left := requeued;
    emitted := map[];
    NothingEmitted(t, was, first);
    while left != {}
      invariant outbox.Valid() && left <= requeued && emitted.Keys == requeued - left
      invariant Emitted(t, was, outbox.rows, emitted, first, outbox.nextId)
      decreases |left|
    {
      var id :| id in left;
      EmittedGrows(t, was, outbox.rows, emitted, first, outbox.nextId, id);
      var e := outbox.Append(INSIGHT_REQUESTED, id, t[id].user);
      emitted, left := emitted[id := e], left - {id};
    }
  }

  /** The loop in plain fields: one fresh PENDING event per requeued row, and no other change. */
  method EmitRequeued(t: Table, requeued: set<InsightId>, outbox: OutboxRepository)
      returns (emitted: map<InsightId, EventId>)
    requires outbox.Valid() && requeued <= t.Keys
    modifies outbox
    ensures outbox.Valid() && emitted.Keys == requeued && Injective(emitted)
    ensures forall id :: id in requeued ==>
              && emitted[id] in outbox.rows && emitted[id] !in old(outbox.rows)
              && outbox.rows[emitted[id]]
                 == OutboxRow(Message(emitted[id], "InsightRequested", id, t[id].user), PENDING, 0, None)
    ensures forall e :: e in old(outbox.rows) ==> e in outbox.rows && outbox.rows[e] == old(outbox.rows)[e]
    ensures forall e :: e in outbox.rows && e !in old(outbox.rows) ==> e in emitted.Values
    ensures Emitted(t, old(outbox.rows), outbox.rows, emitted, old(outbox.nextId), outbox.nextId)
  {
    ghost var was, first := outbox.rows, outbox.nextId;
    emitted := EmitEach(t, requeued, outbox);
    EmittedMeans(t, was, outbox.rows, emitted, first, outbox.nextId);
  }

  /** `_reaper_tick`: one fresh event per requeued insight, and the two stores end up
      exactly as the protocol's tick leaves them. */
  method ReaperTick(repo: Repository, outbox: OutboxRepository, maxRetries: nat, now: int)
    returns (emitted: map<InsightId, EventId>)
    requires outbox.Valid() && maxRetries >= 1
    modifies repo, outbox
    ensures outbox.Valid()
    ensures repo.rows.Keys == old(repo.rows).Keys
    ensures forall id :: id in repo.rows ==>
              var was := old(repo.rows)[id];
              if was.status != Processing || was.deadline == None || was.deadline.value >= now
              then repo.rows[id] == was && id !in emitted
              else if was.retryCount < maxRetries
              then repo.rows[id] == was.(status := Queued, retryCount := was.retryCount + 1, deadline := None)
                   && id in emitted && emitted[id] !in old(outbox.rows) && emitted[id] in outbox.rows
                   && outbox.rows[emitted[id]]
                      == OutboxRow(Message(emitted[id], "InsightRequested", id, was.user), PENDING, 0, None)
              else repo.rows[id] == was.(status := Failed, error := Some("max retries exceeded")) && id !in emitted
    ensures forall e :: e in old(outbox.rows) ==> e in outbox.rows && outbox.rows[e] == old(outbox.rows)[e]
    ensures forall e :: e in outbox.rows && e !in old(outbox.rows) ==> e in emitted.Values
    ensures repo.rows == Reap(old(repo.rows), maxRetries, now)
    ensures emitted.Keys == Requeued(old(repo.rows), maxRetries, now) && Injective(emitted)
    ensures forall id :: id in emitted ==> emitted[id] >= old(outbox.nextId)
    ensures outbox.rows == old(outbox.rows) + NewRows(Appended(old(repo.rows), emitted))
  {
    var rows := repo.rows;
    var reaped := repo.ReapExpiredProcessing(maxRetries, now);
    emitted := EmitRequeued(rows, reaped.value.0, outbox);
  }
}
