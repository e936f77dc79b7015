/** What holds over every run of the delivery protocol, however its processes
    interleave, crash and are redelivered to. */
module DeliveryTheorems {
  import opened Wrappers
  import opened InsightRows
  import opened Outbox
  import opened Delivery
  import opened DeliveryInvariant

  lemma {:induction false} RunKeepsInv(states: seq<State>, steps: seq<Step>, cfg: Config, k: nat)
    requires IsRun(states, steps, cfg) && k < |states|
    ensures Inv(states[k], cfg)
  {
    if k == 0 {
      InitInv(cfg);
    } else {
      RunKeepsInv(states, steps, cfg, k - 1);
      assert Linked(states, steps, cfg, k - 1);
      StepKeepsInv(states[k - 1], steps[k - 1], cfg);
    }
  }

  /** In every reachable state the event of a QUEUED insight's latest queueing is
      addressed to that insight and its owner and still on its way: an unsent
      outbox row, an unacknowledged unmarked message, or a dead letter. */
  lemma {:induction false} NoInsightStranded(states: seq<State>, steps: seq<Step>, cfg: Config, k: nat, id: InsightId)
    requires IsRun(states, steps, cfg) && k < |states|
    requires id in states[k].insights && states[k].insights[id].status == Queued
    ensures var s := states[k];
            && id in s.latest && s.latest[id] in s.events
            && s.events[s.latest[id]] == RequestedEvent(s.latest[id], id, s.insights[id].user)
            && (|| (s.latest[id] in s.outbox && s.outbox[s.latest[id]].status in {PENDING, FAILED})
                || Undelivered(s, s.latest[id])
                || s.latest[id] in s.dlq)
  {
    var s := states[k];
    RunKeepsInv(states, steps, cfg, k);
    assert LatestOk(s, id) && EventOk(s, s.latest[id]) && Waiting(s, s.latest[id]);
  }

  /** Successful claims are the retries, plus one once QUEUED was left; each claim pays
      for at most one AI call, and retries are capped: at most maxRetries + 1 calls ever. */
  lemma {:induction false} ClaimsCountRetries(states: seq<State>, steps: seq<Step>, cfg: Config, k: nat, id: InsightId)
    requires IsRun(states, steps, cfg) && k < |states| && id in states[k].insights
    ensures var s := states[k]; var r := s.insights[id];
            && r.retryCount <= cfg.reaperMaxRetries
            && Count(s.claims, id) == (if r.status == Queued then r.retryCount else r.retryCount + 1)
            && Count(s.aiCalls, id) <= Count(s.claims, id) <= cfg.reaperMaxRetries + 1
            && (r.status == Processing ==> r.deadline.Some?)
  {
    RunKeepsInv(states, steps, cfg, k);
    assert Counted(states[k], id, cfg);
  }

  /** From one state of a run to the next, every insight stays and moves legally. */
  lemma {:induction false} RunMovesLegally(states: seq<State>, steps: seq<Step>, cfg: Config, k: nat, id: InsightId)
    requires IsRun(states, steps, cfg) && k < |steps| && id in states[k].insights
    ensures id in states[k + 1].insights
    ensures LegalMove(states[k].insights[id], states[k + 1].insights[id], cfg.reaperMaxRetries)
  {
    assert Linked(states, steps, cfg, k);
    StepMovesLegally(states[k], steps[k], cfg);
  }

  /** Over a run, insights never disappear. */
  lemma {:induction false} InsightsStay(states: seq<State>, steps: seq<Step>, cfg: Config, j: nat, k: nat,
      id: InsightId)
    requires IsRun(states, steps, cfg) && j <= k < |states| && id in states[j].insights
    ensures id in states[k].insights
  {
    if j < k {
      InsightsStay(states, steps, cfg, j, k - 1, id);
      RunMovesLegally(states, steps, cfg, k - 1, id);
    }
  }

  /** COMPLETED and FAILED are absorbing: no duplicate event, late worker, late failure
      record or reaper tick changes any field of a terminal insight. */
  lemma {:induction false} TerminalIsFinal(states: seq<State>, steps: seq<Step>, cfg: Config, j: nat, k: nat,
      id: InsightId)
    requires IsRun(states, steps, cfg) && j <= k < |states|
    requires id in states[j].insights && Terminal(states[j].insights[id])
    ensures id in states[k].insights && states[k].insights[id] == states[j].insights[id]
  {
    if j < k {
      TerminalIsFinal(states, steps, cfg, j, k - 1, id);
      RunMovesLegally(states, steps, cfg, k - 1, id);
    }
  }

  /** How many of the steps j..k change the row of id. */
  ghost function Changes(states: seq<State>, j: nat, k: nat, id: InsightId): nat
    requires j <= k < |states|
    requires forall m :: j <= m <= k ==> id in states[m].insights
  {
    if j == k then 0
    else Changes(states, j, k - 1, id) + if states[k - 1].insights[id] == states[k].insights[id] then 0 else 1
  }

  lemma {:induction false} RowIsBudgeted(states: seq<State>, steps: seq<Step>, cfg: Config, k: nat, id: InsightId)
    requires IsRun(states, steps, cfg) && k < |states| && id in states[k].insights
    ensures states[k].insights[id].retryCount <= cfg.reaperMaxRetries
    ensures 0 <= Budget(states[k].insights[id], cfg.reaperMaxRetries) <= 2 * cfg.reaperMaxRetries + 2
  {
    RunKeepsInv(states, steps, cfg, k);
    assert Counted(states[k], id, cfg);
  }

  /** Every change spends one unit of a budget that starts at 2 * maxRetries + 2, so a
      row changes at most that often over its whole life, in any run. */
  lemma {:induction false} ChangesAreBounded(states: seq<State>, steps: seq<Step>, cfg: Config, j: nat, k: nat,
      id: InsightId)
    requires IsRun(states, steps, cfg) && j <= k < |states| && id in states[j].insights
    ensures forall m :: j <= m <= k ==> id in states[m].insights
    ensures 0 <= Budget(states[k].insights[id], cfg.reaperMaxRetries)
    ensures Changes(states, j, k, id) + Budget(states[k].insights[id], cfg.reaperMaxRetries)
            <= Budget(states[j].insights[id], cfg.reaperMaxRetries) <= 2 * cfg.reaperMaxRetries + 2
  {
    forall m | j <= m <= k ensures id in states[m].insights {
      InsightsStay(states, steps, cfg, j, m, id);
    }
    RowIsBudgeted(states, steps, cfg, j, id);
    if j < k {
      ChangesAreBounded(states, steps, cfg, j, k - 1, id);
      RowIsBudgeted(states, steps, cfg, k - 1, id);
      RunMovesLegally(states, steps, cfg, k - 1, id);
      LegalMoveSpends(states[k - 1].insights[id], states[k].insights[id], cfg.reaperMaxRetries);
    }
  }

  // ---------- recovery ----------

  lemma {:induction false} Bounded(s: set<nat>) returns (b: nat)
    ensures forall x :: x in s ==> x < b
    decreases |s|
  {
    if s == {} {
      b := 0;
    } else {
      var x :| x in s;
      var b' := Bounded(s - {x});
      b := if x < b' then b' else x + 1;
      assert forall y :: y in s ==> y == x || y in s - {x};
    }
  }

  ghost predicate ExpiredIsRecovered(s: State, s': State, id: InsightId, cfg: Config)
    requires id in s.insights
  {
    && id in s'.insights
    && if s.insights[id].retryCount < cfg.reaperMaxRetries
       then s'.insights[id].status == Queued && id in s'.latest && PendingRow(s', s'.latest[id])
            && s'.latest[id] !in s.events
       else s'.insights[id].status == Failed && s'.insights[id].error == Some(MAX_RETRIES_EXCEEDED)
  }

  /** The reaper is never blocked: fresh event ids can always be found. */
  lemma {:induction false} ReaperIsNeverBlocked(s: State, cfg: Config)
    requires Inv(s, cfg)
    ensures exists emitted :: Enabled(s, ReaperTick(emitted), cfg)
  {
    var b := Bounded(s.events.Keys);
    var ids := Requeued(s.insights, cfg.reaperMaxRetries, s.now);
    var emitted := map id | id in ids :: id + b;
    assert forall id :: id in emitted ==> emitted[id] !in s.events;
    assert Enabled(s, ReaperTick(emitted), cfg);
  }

  /** A tick in plain fields. It leaves alone every lease that has not ended and every row
      without one. An ended lease costs a retry and gets a fresh PENDING event, or costs the
      insight once there are no retries left. */
  lemma {:induction false} TickMeans(s: State, cfg: Config, emitted: map<InsightId, EventId>, id: InsightId)
    requires Enabled(s, ReaperTick(emitted), cfg) && id in s.insights
    ensures var s', was := Apply(s, ReaperTick(emitted), cfg), s.insights[id];
            && id in s'.insights
            && if was.status != Processing || was.deadline == None || was.deadline.value >= s.now
               then s'.insights[id] == was && id !in emitted
               else if was.retryCount < cfg.reaperMaxRetries
               then && s'.insights[id] == was.(status := Queued, retryCount := was.retryCount + 1, deadline := None)
                    && id in emitted && emitted[id] !in s.events && emitted[id] in s'.outbox
                    && s'.outbox[emitted[id]]
                       == OutboxRow(Message(emitted[id], "InsightRequested", id, was.user), PENDING, 0, None)
               else s'.insights[id] == was.(status := Failed, error := Some("max retries exceeded")) && id !in emitted
  {
    if id in emitted {
      AppendedFor(s.insights, emitted, id);
      ReapedAt(s, emitted, cfg, emitted[id]);
    }
  }

  /** Its tick returns every expired PROCESSING insight to the protocol: requeued under a
      fresh PENDING event while retries are left, FAILED otherwise. */
  lemma {:induction false} ReaperRecoversExpired(s: State, cfg: Config, emitted: map<InsightId, EventId>, id: InsightId)
    requires Inv(s, cfg) && Enabled(s, ReaperTick(emitted), cfg)
    requires id in s.insights && Expired(s.insights[id], s.now)
    ensures ExpiredIsRecovered(s, Apply(s, ReaperTick(emitted), cfg), id, cfg)
  {
    if id in emitted {
      AppendedFor(s.insights, emitted, id);
      ReapedAt(s, emitted, cfg, emitted[id]);
    }
  }

  // ---------- outcomes ----------

  /** Handler h's move writes to the row of id. */
  predicate Writes(s: State, h: HandlerId, id: InsightId)
    requires id in s.insights
  {
    h in s.handlers && s.handlers[h].msg.insight == id && s.handlers[h].msg.user == s.insights[id].user
  }

  /** All that a handler's move does to an insight, in plain fields. */
  lemma {:induction false} MoveOnRow(s: State, h: HandlerId, move: HandlerMove, cfg: Config, id: InsightId)
    requires h in s.handlers && CanMove(s.handlers[h].phase, move) && id in s.insights
    ensures id in Moved(s, h, move, cfg).insights
    ensures var was, phase := s.insights[id], s.handlers[h].phase;
            Moved(s, h, move, cfg).insights[id]
            == if Writes(s, h, id) && move.ClaimInsight? && was.status == Queued
               then was.(status := Processing, deadline := Some(move.deadline))
               else if Writes(s, h, id) && move.CompleteInsight? && was.status == Processing
                       && 1 <= phase.content.answer.impactScore <= 10
               then was.(status := Completed, content := Some(phase.content))
               else if Writes(s, h, id) && move.RecordInsightFailure? && was.status == Processing
               then was.(status := Failed, error := Some(phase.error))
               else was
  {
  }

  /** Step j ended an AI call for the insight with this content. */
  predicate GeneratedBy(s: State, step: Step, id: InsightId, c: Content) {
    step.Handle? && step.move == Generate(c) && step.h in s.handlers && s.handlers[step.h].msg.insight == id
  }

  ghost predicate WasGenerated(states: seq<State>, steps: seq<Step>, k: nat, id: InsightId, c: Content) {
    exists j :: 0 <= j < k && j < |steps| && j < |states| && GeneratedBy(states[j], steps[j], id, c)
  }

  /** What a handler is about to store was generated for its insight. */
  ghost predicate HandlerIsSourced(states: seq<State>, steps: seq<Step>, k: nat, h: HandlerId)
    requires k < |states|
  {
    var s := states[k];
    h in s.handlers && s.handlers[h].phase.Generated? ==>
      WasGenerated(states, steps, k, s.handlers[h].msg.insight, s.handlers[h].phase.content)
  }

  /** A COMPLETED row has content generated for it, with a score of 1 to 10; a FAILED one has an error. */
  ghost predicate RowIsExplained(states: seq<State>, steps: seq<Step>, k: nat, id: InsightId)
    requires k < |states| && id in states[k].insights
  {
    var r := states[k].insights[id];
    && (r.status == Completed ==>
          && r.content.Some? && 1 <= r.content.value.answer.impactScore <= 10
          && WasGenerated(states, steps, k, id, r.content.value))
    && (r.status == Failed ==> r.error.Some?)
  }

  lemma {:induction false} StillGenerated(states: seq<State>, steps: seq<Step>, k: nat, id: InsightId, c: Content)
    requires WasGenerated(states, steps, k, id, c)
    ensures WasGenerated(states, steps, k + 1, id, c)
  {
  }

  lemma {:induction false} HandlerStaysSourced(states: seq<State>, steps: seq<Step>, cfg: Config, k: nat, h: HandlerId)
    requires k < |steps| < |states| && Linked(states, steps, cfg, k)
    requires HandlerIsSourced(states, steps, k, h)
    ensures HandlerIsSourced(states, steps, k + 1, h)
  {
    var s, step, s' := states[k], steps[k], states[k + 1];
    if h in s'.handlers && s'.handlers[h].phase.Generated? {
      var id, c := s'.handlers[h].msg.insight, s'.handlers[h].phase.content;
      if step.Handle? && step.h == h {
        assert GeneratedBy(s, step, id, c);
      } else {
        OthersKeepHandlers(s, step, cfg, h);
        StillGenerated(states, steps, k, id, c);
      }
    }
  }

  lemma {:induction false} OthersKeepHandlers(s: State, step: Step, cfg: Config, h: HandlerId)
    requires Enabled(s, step, cfg) && !(step.Handle? && step.h == h)
    ensures h in Apply(s, step, cfg).handlers ==>
              (h in s.handlers && Apply(s, step, cfg).handlers[h] == s.handlers[h])
              || Apply(s, step, cfg).handlers[h].phase == Received
  {
    match step
    case Handle(k, move) => MovesHaveFacts(s, k, move, cfg);
    case Poll(p, e, poll) => PollFacts(s, p, e, poll, cfg);
    case _ =>
  }

  lemma {:induction false} RowStaysExplained(states: seq<State>, steps: seq<Step>, cfg: Config, k: nat, id: InsightId)
    requires k < |steps| < |states| && Linked(states, steps, cfg, k)
    requires id in states[k].insights && id in states[k + 1].insights && RowIsExplained(states, steps, k, id)
    requires steps[k].Handle? ==> HandlerIsSourced(states, steps, k, steps[k].h)
    ensures RowIsExplained(states, steps, k + 1, id)
  {
    var s, step := states[k], steps[k];
    match step
    case Handle(h, move) => MoveOnRow(s, h, move, cfg, id);
    case ReaperTick(emitted) => TickMeans(s, cfg, emitted, id);
    case Poll(p, e, poll) => PollFacts(s, p, e, poll, cfg);
    case _ =>
    var r := states[k + 1].insights[id];
    if r.status == Completed {
      StillGenerated(states, steps, k, id, r.content.value);
    }
  }

  /** No insight ends without its reason: over every run a COMPLETED one holds an answer with
      a score of 1 to 10 that an AI call generated for it, and a FAILED one holds an error. */
  lemma {:induction false} OutcomesAreExplained(states: seq<State>, steps: seq<Step>, cfg: Config, k: nat)
    requires IsRun(states, steps, cfg) && k < |states|
    ensures forall id :: id in states[k].insights ==> RowIsExplained(states, steps, k, id)
    ensures forall h :: HandlerIsSourced(states, steps, k, h)
  {
    if k > 0 {
      OutcomesAreExplained(states, steps, cfg, k - 1);
      assert Linked(states, steps, cfg, k - 1);
      forall h ensures HandlerIsSourced(states, steps, k, h) {
        HandlerStaysSourced(states, steps, cfg, k - 1, h);
      }
      forall id | id in states[k].insights ensures RowIsExplained(states, steps, k, id) {
        if id in states[k - 1].insights {
          RowStaysExplained(states, steps, cfg, k - 1, id);
        } else {
          NewRowsAreQueued(states[k - 1], steps[k - 1], cfg, id);
        }
      }
    }
  }

  lemma {:induction false} NewRowsAreQueued(s: State, step: Step, cfg: Config, id: InsightId)
    requires Enabled(s, step, cfg) && id !in s.insights && id in Apply(s, step, cfg).insights
    ensures Apply(s, step, cfg).insights[id].status == Queued
  {
    match step
    case Handle(h, move) => MovesHaveFacts(s, h, move, cfg);
    case Poll(p, e, poll) => PollFacts(s, p, e, poll, cfg);
    case _ =>
  }
}
