/** The transactional outbox: its rows, the poller that relays them to the topic,
    and the admin operation that replays quarantined rows. */
module Outbox {
  import opened Collections
  import opened Wrappers

  import opened InsightRows

  type EventId = nat

  /** What is published: the row's id, its type, and the payload's two references. */
  datatype Message = Message(event: EventId, eventType: string, insight: InsightId, user: UserId)

  datatype OutboxStatus = PENDING | SENT | FAILED

  datatype OutboxRow = OutboxRow(msg: Message, status: OutboxStatus, retryCount: nat, failedAt: Option<int>)

  type OutboxTable = map<EventId, OutboxRow>

  const INSIGHT_REQUESTED: string := "InsightRequested"

  /** What one attempt came to. A rolled-back attempt may still have put its message on
      the topic; an unlocked one raised before it had locked the row; a skipped one found
      the row locked by somebody else. */
  datatype Attempt = Committed | RolledBack(delivered: bool) | Unlocked | Skipped

  // ---------- row transitions ----------

  function NewRow(msg: Message): OutboxRow {
    OutboxRow(msg, PENDING, 0, None)
  }

  function Quarantine(r: OutboxRow, now: int): OutboxRow {
    r.(status := FAILED, failedAt := Some(now))
  }

  /** `_record_failure`: counts the failure whatever the row's status is by now. */
  function CountFailure(r: OutboxRow, maxRetries: int, now: int): OutboxRow {
    if r.retryCount + 1 >= maxRetries
    then Quarantine(r, now).(retryCount := r.retryCount + 1)
    else r.(retryCount := r.retryCount + 1)
  }

  function ReplayRow(r: OutboxRow): OutboxRow {
    r.(status := PENDING, retryCount := 0, failedAt := None)
  }

  /** One whole `_process_one` on a row nobody else touches meanwhile. */
  function RelayRow(r: OutboxRow, a: Attempt, topics: set<string>, maxRetries: int, now: int): OutboxRow {
    if a == Unlocked then CountFailure(r, maxRetries, now)
    else if a == Skipped || r.status != PENDING then r
    else if a.RolledBack? then CountFailure(r, maxRetries, now)
    else if r.msg.eventType !in topics then Quarantine(r, now)
    else r.(status := SENT)
  }

  /** The messages one `_process_one` puts on the topic. */
  function Relayed(r: OutboxRow, a: Attempt, topics: set<string>): seq<Message> {
    if r.status != PENDING || r.msg.eventType !in topics then []
    else if a == Committed || a == RolledBack(true) then [r.msg]
    else []
  }

  /** The messages a batch puts on the topic, in the order of its ids. */
  function RelayedBatch(t: OutboxTable, ids: seq<EventId>, attempts: EventId -> Attempt,
      topics: set<string>): seq<Message>
    requires forall e :: e in ids ==> e in t
  {
    if ids == [] then []
    else RelayedBatch(t, ids[..|ids| - 1], attempts, topics)
         + Relayed(t[ids[|ids| - 1]], attempts(ids[|ids| - 1]), topics)
  }

  /** The table after the rows of `ids` were relayed one after the other. */
  function RelayTable(t: OutboxTable, ids: seq<EventId>, attempts: EventId -> Attempt,
                      topics: set<string>, maxRetries: int, now: int): (t': OutboxTable)
    requires forall e :: e in ids ==> e in t
    ensures t'.Keys == t.Keys
  {
    if ids == [] then t
    else
      var e := ids[|ids| - 1];
      var t0 := RelayTable(t, ids[..|ids| - 1], attempts, topics, maxRetries, now);
      t0[e := RelayRow(t0[e], attempts(e), topics, maxRetries, now)]
  }

  function SentIn(t: OutboxTable, ids: seq<EventId>, attempts: EventId -> Attempt, topics: set<string>): nat
    requires forall e :: e in ids ==> e in t
  {
    if ids == [] then 0
    else SentIn(t, ids[..|ids| - 1], attempts, topics)
         + (var e := ids[|ids| - 1];
            if t[e].status == PENDING && t[e].msg.eventType in topics && attempts(e) == Committed then 1 else 0)
  }

  /** In a batch without repeats every row takes exactly its own relay step. */
  lemma {:induction false} RelayTableAt(t: OutboxTable, ids: seq<EventId>, attempts: EventId -> Attempt,
                                        topics: set<string>, maxRetries: int, now: int, e: EventId)
    requires Distinct(ids) && e in t
    requires forall x :: x in ids ==> x in t
    ensures RelayTable(t, ids, attempts, topics, maxRetries, now)[e]
            == if e in ids then RelayRow(t[e], attempts(e), topics, maxRetries, now) else t[e]
  {
    if ids != [] {
      var last := |ids| - 1;
      assert ids == ids[..last] + [ids[last]];
      RelayTableAt(t, ids[..last], attempts, topics, maxRetries, now, e);
      if e == ids[last] {
        assert e !in ids[..last];
      }
    }
  }

  /** One more id in the batch is one more relay step. */
  lemma {:induction false} RelayStep(t: OutboxTable, ids: seq<EventId>, n: nat, attempts: EventId -> Attempt,
                  topics: set<string>, maxRetries: int, now: int)
    requires Distinct(ids) && n < |ids|
    requires forall x :: x in ids ==> x in t
    ensures RelayTable(t, ids[..n], attempts, topics, maxRetries, now)[ids[n]] == t[ids[n]]
    ensures RelayTable(t, ids[..n + 1], attempts, topics, maxRetries, now)
            == RelayTable(t, ids[..n], attempts, topics, maxRetries, now)
               [ids[n] := RelayRow(t[ids[n]], attempts(ids[n]), topics, maxRetries, now)]
    ensures RelayedBatch(t, ids[..n + 1], attempts, topics)
            == RelayedBatch(t, ids[..n], attempts, topics) + Relayed(t[ids[n]], attempts(ids[n]), topics)
    ensures SentIn(t, ids[..n + 1], attempts, topics)
            == SentIn(t, ids[..n], attempts, topics)
               + if t[ids[n]].status == PENDING && t[ids[n]].msg.eventType in topics && attempts(ids[n]) == Committed
                 then 1 else 0
  {
    assert ids[..n + 1][..n] == ids[..n] && ids[n] !in ids[..n];
    RelayTableAt(t, ids[..n], attempts, topics, maxRetries, now, ids[n]);
  }

  predicate Distinct<T(==)>(s: seq<T>) {
    forall i, j :: 0 <= i < j < |s| ==> s[i] != s[j]
  }

  /** The ids of a batch whose attempt commits, or puts its message on the topic, known topics only. */
  function SentIds(t: OutboxTable, ids: seq<EventId>, attempts: EventId -> Attempt, topics: set<string>): set<EventId> {
    set e | e in ids && e in t && attempts(e) == Committed && t[e].msg.eventType in topics
  }

  function RelayedIds(t: OutboxTable, ids: seq<EventId>, attempts: EventId -> Attempt,
      topics: set<string>): set<EventId>
  {
    set e | e in ids && e in t && attempts(e) in {Committed, RolledBack(true)} && t[e].msg.eventType in topics
  }

  predicate AllPending(t: OutboxTable, ids: seq<EventId>) {
    forall e :: e in ids ==> e in t && t[e].status == PENDING
  }

  lemma {:induction false} DistinctFront(ids: seq<EventId>)
    requires Distinct(ids) && ids != []
    ensures Distinct(ids[..|ids| - 1]) && ids[|ids| - 1] !in ids[..|ids| - 1]
    ensures forall e :: e in ids <==> e in ids[..|ids| - 1] || e == ids[|ids| - 1]
  {
    assert ids == ids[..|ids| - 1] + [ids[|ids| - 1]];
  }

  lemma {:induction false} OneMoreSent(t: OutboxTable, ids: seq<EventId>, attempts: EventId -> Attempt,
                                       topics: set<string>)
    requires Distinct(ids) && AllPending(t, ids) && ids != []
    ensures var front, last := ids[..|ids| - 1], ids[|ids| - 1];
            && last !in SentIds(t, front, attempts, topics)
            && SentIds(t, ids, attempts, topics)
               == SentIds(t, front, attempts, topics)
                  + (if attempts(last) == Committed && t[last].msg.eventType in topics then {last} else {})
  {
    DistinctFront(ids);
  }

  lemma {:induction false} SentAreCounted(t: OutboxTable, ids: seq<EventId>, attempts: EventId -> Attempt,
                                          topics: set<string>)
    requires Distinct(ids) && AllPending(t, ids)
    ensures SentIn(t, ids, attempts, topics) == |SentIds(t, ids, attempts, topics)|
  {
    if ids != [] {
      DistinctFront(ids);
      SentAreCounted(t, ids[..|ids| - 1], attempts, topics);
      OneMoreSent(t, ids, attempts, topics);
    }
  }

  lemma {:induction false} OneMoreRelayed(t: OutboxTable, ids: seq<EventId>, attempts: EventId -> Attempt,
                                          topics: set<string>)
    requires Distinct(ids) && AllPending(t, ids) && ids != []
    ensures var front, last := ids[..|ids| - 1], ids[|ids| - 1];
            var delivered := attempts(last) in {Committed, RolledBack(true)} && t[last].msg.eventType in topics;
            && last !in RelayedIds(t, front, attempts, topics)
            && RelayedIds(t, ids, attempts, topics)
               == RelayedIds(t, front, attempts, topics) + (if delivered then {last} else {})
            && |Relayed(t[last], attempts(last), topics)| == if delivered then 1 else 0
  {
    DistinctFront(ids);
  }

  lemma {:induction false} RelayedAreCounted(t: OutboxTable, ids: seq<EventId>, attempts: EventId -> Attempt,
                                             topics: set<string>)
    requires Distinct(ids) && AllPending(t, ids)
    ensures |RelayedBatch(t, ids, attempts, topics)| == |RelayedIds(t, ids, attempts, topics)|
  {
    if ids != [] {
      DistinctFront(ids);
      RelayedAreCounted(t, ids[..|ids| - 1], attempts, topics);
      OneMoreRelayed(t, ids, attempts, topics);
    }
  }

  lemma {:induction false} RelayedAreThese(t: OutboxTable, ids: seq<EventId>, attempts: EventId -> Attempt,
                                           topics: set<string>, m: Message)
    requires Distinct(ids) && AllPending(t, ids)
    ensures m in RelayedBatch(t, ids, attempts, topics)
            <==> exists e :: e in RelayedIds(t, ids, attempts, topics) && t[e].msg == m
  {
    if ids != [] {
      var front, last := ids[..|ids| - 1], ids[|ids| - 1];
      DistinctFront(ids);
      RelayedAreThese(t, front, attempts, topics, m);
      if m in RelayedBatch(t, front, attempts, topics) {
        var e :| e in RelayedIds(t, front, attempts, topics) && t[e].msg == m;
        assert e in RelayedIds(t, ids, attempts, topics);
      } else if m in RelayedBatch(t, ids, attempts, topics) {
        assert last in RelayedIds(t, ids, attempts, topics);
      }
      if e :| e in RelayedIds(t, ids, attempts, topics) && t[e].msg == m && e != last {
        assert e in RelayedIds(t, front, attempts, topics);
      }
    }
  }

  /** Every PENDING row of a batch after its attempt, and every other row, in plain fields. */
  lemma {:induction false} RelayMeans(t: OutboxTable, ids: seq<EventId>, attempts: EventId -> Attempt,
                                      topics: set<string>, maxRetries: int, now: int)
    requires Distinct(ids) && AllPending(t, ids)
    ensures var t' := RelayTable(t, ids, attempts, topics, maxRetries, now);
            && (forall e :: e in t && e !in ids ==> t'[e] == t[e])
            && (forall e :: e in ids ==>
                  t'[e] == match attempts(e)
                           case Committed =>
                             if t[e].msg.eventType in topics
                             then OutboxRow(t[e].msg, SENT, t[e].retryCount, t[e].failedAt)
                             else OutboxRow(t[e].msg, FAILED, t[e].retryCount, Some(now))
                           case Skipped => t[e]
                           case _ =>
                             if t[e].retryCount + 1 >= maxRetries
                             then OutboxRow(t[e].msg, FAILED, t[e].retryCount + 1, Some(now))
                             else OutboxRow(t[e].msg, PENDING, t[e].retryCount + 1, t[e].failedAt))
  {
    forall e | e in t
      ensures RelayTable(t, ids, attempts, topics, maxRetries, now)[e]
           == if e in ids then RelayRow(t[e], attempts(e), topics, maxRetries, now) else t[e]
    {
      RelayTableAt(t, ids, attempts, topics, maxRetries, now, e);
    }
  }

  /** What a poll sent and published, read off the rows as it left them. */
  lemma {:induction false} BatchFigures(was: OutboxTable, now: OutboxTable, ids: seq<EventId>,
                                        attempts: EventId -> Attempt, topics: set<string>)
    requires Distinct(ids) && AllPending(was, ids) && now.Keys == was.Keys
    requires forall e :: e in ids ==>
               && now[e].msg == was[e].msg
               && (now[e].status == SENT <==> attempts(e) == Committed && was[e].msg.eventType in topics)
    ensures SentIn(was, ids, attempts, topics) == |set e | e in ids && e in now && now[e].status == SENT|
    ensures |RelayedBatch(was, ids, attempts, topics)|
         == |set e | e in ids && e in now && attempts(e) in {Committed, RolledBack(true)}
                     && now[e].msg.eventType in topics|
    ensures forall m :: m in RelayedBatch(was, ids, attempts, topics) <==>
              exists e :: e in ids && attempts(e) in {Committed, RolledBack(true)}
                          && now[e].msg.eventType in topics && now[e].msg == m
  {
    SentAreCounted(was, ids, attempts, topics);
    RelayedAreCounted(was, ids, attempts, topics);
    assert (set e | e in ids && e in now && now[e].status == SENT) == SentIds(was, ids, attempts, topics);
    assert (set e | e in ids && e in now && attempts(e) in {Committed, RolledBack(true)}
                    && now[e].msg.eventType in topics) == RelayedIds(was, ids, attempts, topics);
    forall m ensures m in RelayedBatch(was, ids, attempts, topics) <==>
        exists e :: e in RelayedIds(was, ids, attempts, topics) && was[e].msg == m
    {
      RelayedAreThese(was, ids, attempts, topics, m);
    }
  }

  class OutboxPoller {
    var rows: OutboxTable
    var log: seq<Message>
    const topics: set<string>
    const batchSize: nat
    const maxRetries: int

    constructor (rows: OutboxTable, log: seq<Message>, topics: set<string>, batchSize: nat, maxRetries: int)
      ensures this.rows == rows && this.log == log && this.topics == topics
      ensures this.batchSize == batchSize && this.maxRetries == maxRetries
    {
      this.rows := rows;
      this.log := log;
      this.topics := topics;
      this.batchSize := batchSize;
      this.maxRetries := maxRetries;
    }

    /** A batch of pending ids; the database chooses the order. */
    method SnapshotPendingIds() returns (ids: seq<EventId>)
      ensures Distinct(ids)
      ensures forall e :: e in ids ==> e in rows && rows[e].status == PENDING
      ensures || |ids| == batchSize
              || (|ids| < batchSize && forall e :: e in rows && rows[e].status == PENDING ==> e in ids)
    {
      ids := [];
      var left := set e | e in rows && rows[e].status == PENDING;
      while left != {} && |ids| < batchSize
        invariant Distinct(ids) && |ids| <= batchSize
        invariant forall e :: e in rows && rows[e].status == PENDING <==> e in left || e in ids
        invariant forall e :: e in left ==> e !in ids
      {
        var e :| e in left;
        ids, left := ids + [e], left - {e};
      }
    }

    method RecordFailure(e: EventId, now: int)
      modifies this`rows
      ensures e !in old(rows) ==> rows == old(rows)
      ensures e in old(rows) ==>
                var was := old(rows)[e];
                rows == old(rows)[e := if was.retryCount + 1 >= maxRetries
                                       then OutboxRow(was.msg, FAILED, was.retryCount + 1, Some(now))
                                       else OutboxRow(was.msg, was.status, was.retryCount + 1, was.failedAt)]
    {
      if e !in rows { return; }
      var newCount := rows[e].retryCount + 1;
      if newCount >= maxRetries {
        MarkFailed(e, Some(newCount), now);
      } else {
        rows := rows[e := rows[e].(retryCount := newCount)];
      }
    }

    method MarkFailed(e: EventId, count: Option<nat>, now: int)
      requires e in rows
      modifies this`rows
      ensures var was := old(rows)[e];
              rows == old(rows)[e := OutboxRow(was.msg, FAILED, if count.Some? then count.value else was.retryCount,
                                               Some(now))]
    {
      var r := rows[e].(status := FAILED, failedAt := Some(now));
      if count.Some? { r := r.(retryCount := count.value); }
      rows := rows[e := r];
    }

    method ProcessOne(e: EventId, attempt: Attempt, now: int) returns (sent: bool)
      requires e in rows
      modifies this`rows, this`log
      ensures rows.Keys == old(rows).Keys && forall k :: k in rows && k != e ==> rows[k] == old(rows)[k]
      ensures var was, known := old(rows)[e], old(rows)[e].msg.eventType in topics;
              var counted := if was.retryCount + 1 >= maxRetries
                             then OutboxRow(was.msg, FAILED, was.retryCount + 1, Some(now))
                             else OutboxRow(was.msg, was.status, was.retryCount + 1, was.failedAt);
              && rows[e] == (if attempt == Unlocked then counted
                             else if attempt == Skipped || was.status != PENDING then was
                             else if attempt.RolledBack? then counted
                             else if known then OutboxRow(was.msg, SENT, was.retryCount, was.failedAt)
                             else OutboxRow(was.msg, FAILED, was.retryCount, Some(now)))
              && log == old(log) + (if was.status == PENDING && known && attempt in {Committed, RolledBack(true)}
                                    then [was.msg] else [])
      ensures rows == old(rows)[e := RelayRow(old(rows)[e], attempt, topics, maxRetries, now)]
      ensures log == old(log) + Relayed(old(rows)[e], attempt, topics)
      ensures sent <==> old(rows)[e].status == PENDING && rows[e].status == SENT
    {
      if attempt == Unlocked {
        RecordFailure(e, now);
        return false;
      }
      var row := rows[e];
      if attempt == Skipped || row.status != PENDING { return false; }
      if row.msg.eventType !in topics {
        if attempt == Committed { MarkFailed(e, None, now); } else { RecordFailure(e, now); }
        return false;
      }
      if attempt != RolledBack(false) {
        log := log + [row.msg];
      }
      if attempt == Committed {
        rows := rows[e := row.(status := SENT)];
        return true;
      }
      RecordFailure(e, now);
      return false;
    }

    /** The snapshot and its relay. */
    method Poll(attempts: EventId -> Attempt, now: int) returns (sent: nat, ids: seq<EventId>)
      modifies this`rows, this`log
      ensures Distinct(ids) && forall e :: e in ids ==> e in old(rows) && old(rows)[e].status == PENDING
      ensures |ids| < batchSize ==> forall e :: e in old(rows) && old(rows)[e].status == PENDING ==> e in ids
      ensures |ids| <= batchSize
      ensures rows == RelayTable(old(rows), ids, attempts, topics, maxRetries, now)
      ensures log == old(log) + RelayedBatch(old(rows), ids, attempts, topics)
      ensures sent == SentIn(old(rows), ids, attempts, topics)
    {
      ids := SnapshotPendingIds();
      sent := RelayAll(ids, attempts, now);
    }

    /** One poll. Every row of the snapshot gets exactly its own relay step, no
        other row moves, and the topic grows by the delivered messages in order. */
    method RunOnce(attempts: EventId -> Attempt, now: int) returns (sent: nat, ids: seq<EventId>)
      modifies this`rows, this`log
      ensures Distinct(ids) && forall e :: e in ids ==> e in old(rows) && old(rows)[e].status == PENDING
      ensures |ids| < batchSize ==> forall e :: e in old(rows) && old(rows)[e].status == PENDING ==> e in ids
      ensures |ids| <= batchSize && rows.Keys == old(rows).Keys
      ensures forall e :: e in rows && e !in ids ==> rows[e] == old(rows)[e]
      ensures forall e :: e in ids ==>
                rows[e] == match attempts(e)
                           case Committed =>
                             if old(rows)[e].msg.eventType in topics
                             then OutboxRow(old(rows)[e].msg, SENT, old(rows)[e].retryCount, old(rows)[e].failedAt)
                             else OutboxRow(old(rows)[e].msg, FAILED, old(rows)[e].retryCount, Some(now))
                           case Skipped => old(rows)[e]
                           case _ =>
                             if old(rows)[e].retryCount + 1 >= maxRetries
                             then OutboxRow(old(rows)[e].msg, FAILED, old(rows)[e].retryCount + 1, Some(now))
                             else OutboxRow(old(rows)[e].msg, PENDING, old(rows)[e].retryCount + 1,
                                            old(rows)[e].failedAt)
      ensures sent == |set e | e in ids && e in rows && rows[e].status == SENT|
      ensures old(log) <= log
      ensures |log| - |old(log)| == |set e | e in ids && e in rows && attempts(e) in {Committed, RolledBack(true)}
                                             && rows[e].msg.eventType in topics|
      ensures forall m :: m in log[|old(log)|..] <==>
                exists e :: e in ids && attempts(e) in {Committed, RolledBack(true)}
                            && rows[e].msg.eventType in topics && rows[e].msg == m
      ensures rows == RelayTable(old(rows), ids, attempts, topics, maxRetries, now)
      ensures log == old(log) + RelayedBatch(old(rows), ids, attempts, topics)
      ensures sent == SentIn(old(rows), ids, attempts, topics)
    {
      ghost var was, before := rows, log;
      sent, ids := Poll(attempts, now);
      RelayMeans(was, ids, attempts, topics, maxRetries, now);
      BatchFigures(was, rows, ids, attempts, topics);
      DropAppended(before, before, RelayedBatch(was, ids, attempts, topics));
    }

    /** Each row of the batch in its own transaction. */
    method RelayAll(ids: seq<EventId>, attempts: EventId -> Attempt, now: int) returns (sent: nat)
      requires Distinct(ids) && forall e :: e in ids ==> e in rows
      modifies this`rows, this`log
      ensures rows == RelayTable(old(rows), ids, attempts, topics, maxRetries, now)
      ensures log == old(log) + RelayedBatch(old(rows), ids, attempts, topics)
      ensures sent == SentIn(old(rows), ids, attempts, topics)
    {
      sent := 0;
      ghost var t, base := rows, log;
      TakeAll(ids);
      for n := 0 to |ids|
        invariant RelayedSoFar(t, rows, base, log, sent, ids[..n], attempts, topics, maxRetries, now)
      {
        RelayedFurther(t, rows, base, log, sent, ids, n, attempts, topics, maxRetries, now);
        var ok := ProcessOne(ids[n], attempts(ids[n]), now);
        if ok {
          sent := sent + 1;
        }
      }
    }
  }

  ghost predicate RelayedSoFar(t: OutboxTable, rows: OutboxTable, base: seq<Message>, log: seq<Message>, sent: nat,
                               ids: seq<EventId>, attempts: EventId -> Attempt, topics: set<string>, maxRetries: int,
                               now: int)
    requires forall e :: e in ids ==> e in t
  {
    && rows == RelayTable(t, ids, attempts, topics, maxRetries, now)
    && log == base + RelayedBatch(t, ids, attempts, topics)
    && sent == SentIn(t, ids, attempts, topics)
  }

  lemma {:induction false} RelayedFurther(t: OutboxTable, rows: OutboxTable, base: seq<Message>, log: seq<Message>,
                                          sent: nat, ids: seq<EventId>, n: nat, attempts: EventId -> Attempt,
                                          topics: set<string>, maxRetries: int, now: int)
    requires Distinct(ids) && n < |ids| && forall e :: e in ids ==> e in t
    requires RelayedSoFar(t, rows, base, log, sent, ids[..n], attempts, topics, maxRetries, now)
    ensures ids[n] in rows
    ensures var e, a := ids[n], attempts(ids[n]);
            var r := RelayRow(rows[e], a, topics, maxRetries, now);
            RelayedSoFar(t, rows[e := r], base, log + Relayed(rows[e], a, topics),
                sent + if rows[e].status == PENDING && r.status == SENT then 1 else 0,
                ids[..n + 1], attempts, topics, maxRetries, now)
  {
    RelayStep(t, ids, n, attempts, topics, maxRetries, now);
    Regroup(base, RelayedBatch(t, ids[..n], attempts, topics), Relayed(t[ids[n]], attempts(ids[n]), topics));
  }

  // ---------- replay ----------

  /** The WHERE clause of a replay, with SKIP LOCKED for the rows others hold. */
  predicate Matches(t: OutboxTable, e: EventId, ids: Option<set<EventId>>, eventType: Option<string>,
                    failedBefore: Option<int>, locked: set<EventId>)
  {
    && e in t && t[e].status == FAILED && e !in locked
    && (ids.Some? ==> e in ids.value)
    && (eventType.Some? ==> t[e].msg.eventType == eventType.value)
    && (failedBefore.Some? ==> t[e].failedAt.Some? && t[e].failedAt.value < failedBefore.value)
  }

  /** a failed no later than b, an unknown time counting as latest. */
  predicate NoLater(t: OutboxTable, a: EventId, b: EventId)
    requires a in t && b in t
  {
    t[b].failedAt.None? || (t[a].failedAt.Some? && t[a].failedAt.value <= t[b].failedAt.value)
  }

  predicate OldestFirst(t: OutboxTable, s: seq<EventId>) {
    && (forall i :: 0 <= i < |s| ==> s[i] in t)
    && (forall i, j :: 0 <= i < j < |s| ==> NoLater(t, s[i], s[j]))
  }

  method Oldest(t: OutboxTable, s: set<EventId>) returns (e: EventId)
    requires s != {} && s <= t.Keys
    ensures e in s && forall x :: x in s ==> NoLater(t, e, x)
  {
    e :| e in s;
    var left := s - {e};
    while left != {}
      invariant e in s && left <= s
      invariant forall x :: x in s && x !in left ==> NoLater(t, e, x)
    {
      var x :| x in left;
      if !NoLater(t, e, x) { e := x; }
      left := left - {x};
    }
  }

  class OutboxAdmin {
    var rows: OutboxTable

    /** The query of a replay: matching rows, oldest failure first, at most `limit`. */
    method SelectFailed(ids: Option<set<EventId>>, eventType: Option<string>, failedBefore: Option<int>,
                        limit: Option<nat>, locked: set<EventId>)
      returns (targets: seq<EventId>)
      ensures Distinct(targets)
      ensures forall e :: e in targets ==> e in rows && Matches(rows, e, ids, eventType, failedBefore, locked)
      ensures OldestFirst(rows, targets)
      ensures (limit.Some? && |targets| == limit.value)
              || forall e :: Matches(rows, e, ids, eventType, failedBefore, locked) ==> e in targets
      ensures limit.Some? ==> |targets| <= limit.value
      ensures forall e, x ::
                e in targets && x !in targets && Matches(rows, x, ids, eventType, failedBefore, locked) ==>
                e in rows && NoLater(rows, e, x)
    {
      var left := set e | e in rows && Matches(rows, e, ids, eventType, failedBefore, locked);
      targets := [];
      while left != {} && (limit.Some? ==> |targets| < limit.value)
        invariant Distinct(targets) && (limit.Some? ==> |targets| <= limit.value)
        invariant forall e :: Matches(rows, e, ids, eventType, failedBefore, locked) <==> e in left || e in targets
        invariant forall e :: e in left ==> e !in targets
        invariant forall e, x :: e in targets && x in left ==> NoLater(rows, e, x)
        invariant OldestFirst(rows, targets)
        decreases |left|
      {
        var e := Oldest(rows, left);
        targets, left := targets + [e], left - {e};
      }
    }

    /** Replays matching quarantined rows, oldest failure first and an unknown time last, at
        most `limit`: they are PENDING again as if new, and every other row stays. */
    method RequeueFailed(ids: Option<set<EventId>>, eventType: Option<string>, failedBefore: Option<int>,
                         limit: Option<nat>, dryRun: bool, locked: set<EventId>)
      returns (targets: seq<EventId>)
      modifies this
      ensures Distinct(targets) && (limit.Some? ==> |targets| <= limit.value)
      ensures forall e :: e in targets ==>
                && e in old(rows) && old(rows)[e].status == FAILED && e !in locked
                && (ids.Some? ==> e in ids.value)
                && (eventType.Some? ==> old(rows)[e].msg.eventType == eventType.value)
                && (failedBefore.Some? ==>
                      old(rows)[e].failedAt.Some? && old(rows)[e].failedAt.value < failedBefore.value)
      ensures forall x :: x in old(rows) && x !in targets && old(rows)[x].status == FAILED && x !in locked
                          && (ids.Some? ==> x in ids.value)
                          && (eventType.Some? ==> old(rows)[x].msg.eventType == eventType.value)
                          && (failedBefore.Some? ==>
                                old(rows)[x].failedAt.Some? && old(rows)[x].failedAt.value < failedBefore.value) ==>
                && limit == Some(|targets|)
                && forall e :: e in targets ==>
                     old(rows)[x].failedAt.None?
                     || (old(rows)[e].failedAt.Some? && old(rows)[e].failedAt.value <= old(rows)[x].failedAt.value)
      ensures forall i, j :: 0 <= i < j < |targets| ==>
                old(rows)[targets[j]].failedAt.None?
                || (old(rows)[targets[i]].failedAt.Some?
                    && old(rows)[targets[i]].failedAt.value <= old(rows)[targets[j]].failedAt.value)
      ensures rows.Keys == old(rows).Keys
      ensures forall e :: e in rows ==>
                rows[e] == if e in targets && !dryRun then OutboxRow(old(rows)[e].msg, PENDING, 0, None)
                           else old(rows)[e]
    {
      targets := SelectFailed(ids, eventType, failedBefore, limit, locked);
      assert forall e :: e in targets ==> Matches(rows, e, ids, eventType, failedBefore, locked);
      if dryRun || targets == [] { return; }
      rows := map e | e in rows :: if e in targets then rows[e].(status := PENDING, retryCount := 0, failedAt := None)
                                   else rows[e];
    }
  }
}
