/** Progress of the delivery protocol under fair schedules: in every fair infinite
    behaviour a QUEUED insight is claimed in the end, or its event dead-lettered. */
module DeliveryLiveness {
  import opened Wrappers
  import opened InsightRows
  import opened Outbox
  import opened Delivery
  import opened DeliveryInvariant
  import opened DeliveryTheorems

  type Trace = nat -> State
  type Schedule = nat -> Step

  ghost predicate Follows(states: Trace, steps: Schedule, cfg: Config, n: nat) {
    Enabled(states(n), steps(n), cfg) && states(n + 1) == Apply(states(n), steps(n), cfg)
  }

  /** An infinite run from the empty deployment. */
  ghost predicate IsBehaviour(states: Trace, steps: Schedule, cfg: Config) {
    states(0) == Init() && forall n {:trigger Follows(states, steps, cfg, n)} :: Follows(states, steps, cfg, n)
  }

  lemma {:induction false} BehaviourKeepsInv(states: Trace, steps: Schedule, cfg: Config, n: nat)
    requires IsBehaviour(states, steps, cfg)
    ensures Inv(states(n), cfg)
  {
    if n == 0 {
      InitInv(cfg);
    } else {
      BehaviourKeepsInv(states, steps, cfg, n - 1);
      assert Follows(states, steps, cfg, n - 1);
      StepKeepsInv(states(n - 1), steps(n - 1), cfg);
    }
  }

  // ---------- fairness ----------

  /** The message may be delivered, again or for the first time. */
  predicate Deliverable(s: State, o: nat) {
    o < |s.log| && o !in s.acked && s.log[o].event !in s.processed
  }

  /** A handler of message o attempts its claim. */
  predicate Attempts(s: State, step: Step, o: nat) {
    step.Handle? && step.move.ClaimInsight? && step.h in s.handlers && s.handlers[step.h].offset == o
  }

  predicate Sends(step: Step, e: EventId) {
    step.Poll? && step.e == e && step.poll == Send
  }

  predicate Quarantined(s: State, e: EventId) {
    e in s.outbox && s.outbox[e].status == FAILED
  }

  ghost predicate AttemptedOrNot(states: Trace, steps: Schedule, o: nat, n: nat) {
    exists m: nat :: m >= n && (!Deliverable(states(m), o) || Attempts(states(m), steps(m), o))
  }

  ghost predicate SentLater(steps: Schedule, e: EventId, n: nat) {
    exists m: nat :: m >= n && Sends(steps(m), e)
  }

  ghost predicate NeverPending(states: Trace, e: EventId, m: nat) {
    forall k: nat :: k >= m ==> !PendingRow(states(k), e)
  }

  ghost predicate PendingNoMore(states: Trace, e: EventId, n: nat) {
    exists m: nat :: m >= n && NeverPending(states, e, m)
  }

  ghost predicate ReplayedLater(states: Trace, e: EventId, n: nat) {
    exists m: nat :: m >= n && !Quarantined(states(m), e)
  }

  /** A message that stays deliverable is not redelivered for ever without one of its
      handlers getting as far as its claim. */
  ghost predicate FairConsumer(states: Trace, steps: Schedule) {
    forall o: nat, n: nat {:trigger AttemptedOrNot(states, steps, o, n)} :: AttemptedOrNot(states, steps, o, n)
  }

  /** A row that is PENDING again and again is sent some time. */
  ghost predicate FairPoller(states: Trace, steps: Schedule) {
    forall e, n: nat {:trigger SentLater(steps, e, n)} :: SentLater(steps, e, n) || PendingNoMore(states, e, n)
  }

  /** No row stays quarantined for ever. */
  ghost predicate FairOperator(states: Trace) {
    forall e, n: nat {:trigger ReplayedLater(states, e, n)} :: ReplayedLater(states, e, n)
  }

  // ---------- leading to a claim ----------

  /** The step claims the QUEUED insight. */
  predicate Claims(s: State, step: Step, id: InsightId) {
    && step.Handle? && step.move.ClaimInsight? && step.h in s.handlers && s.handlers[step.h].msg.insight == id
    && Visible(s.insights, id, s.handlers[step.h].msg.user) && s.insights[id].status == Queued
  }

  lemma {:induction false} ClaimsIsAClaim(s: State, step: Step, cfg: Config, id: InsightId)
    requires Enabled(s, step, cfg) && Claims(s, step, id)
    ensures id in Apply(s, step, cfg).insights
    ensures Apply(s, step, cfg).insights[id]
         == s.insights[id].(status := Processing, deadline := Some(step.move.deadline))
  {
  }

  /** The n-th step claims the insight of e, or e is dead-lettered by then. */
  predicate SettledAt(states: Trace, steps: Schedule, e: EventId, id: InsightId, n: nat) {
    Claims(states(n), steps(n), id) || e in states(n).dlq
  }

  ghost predicate Settles(states: Trace, steps: Schedule, e: EventId, id: InsightId, n: nat) {
    exists m: nat :: m >= n && SettledAt(states, steps, e, id, m)
  }

  lemma {:induction false} SettlesBefore(states: Trace, steps: Schedule, e: EventId, id: InsightId, n: nat, m: nat)
    requires n <= m && Settles(states, steps, e, id, m)
    ensures Settles(states, steps, e, id, n)
  {
    var k: nat :| k >= m && SettledAt(states, steps, e, id, k);
  }

  /** Insight id is QUEUED and waits for e. */
  predicate Awaits(s: State, e: EventId, id: InsightId) {
    Waiting(s, e) && s.events[e].insight == id
  }

  /** Waiting ends with a claim only. */
  lemma {:induction false} WaitsOn(s: State, step: Step, cfg: Config, e: EventId, id: InsightId)
    requires Shape(s) && Enabled(s, step, cfg) && Awaits(s, e, id) && !Claims(s, step, id)
    ensures Awaits(Apply(s, step, cfg), e, id)
  {
    assert EventOk(s, e);
    match step
    case Handle(h, move) => OtherMoveKeepsWaiting(s, h, move, cfg, e);
    case ReaperTick(emitted) => ReapKeepsWaiting(s, emitted, cfg, e);
    case Poll(p, e', poll) => PollFacts(s, p, e', poll, cfg);
    case _ =>
  }

  lemma {:induction false} OtherMoveKeepsWaiting(s: State, h: HandlerId, move: HandlerMove, cfg: Config, e: EventId)
    requires h in s.handlers && CanMove(s.handlers[h].phase, move) && Waiting(s, e)
    requires !Claims(s, Handle(h, move), s.events[e].insight)
    ensures Waiting(Moved(s, h, move, cfg), e) && Moved(s, h, move, cfg).events == s.events
  {
  }

  lemma {:induction false} ReapKeepsWaiting(s: State, emitted: map<InsightId, EventId>, cfg: Config, e: EventId)
    requires Waiting(s, e) && CanReap(s, emitted, cfg)
    ensures Waiting(Reaped(s, emitted, cfg), e) && Reaped(s, emitted, cfg).events[e] == s.events[e]
  {
    ReapedAt(s, emitted, cfg, e);
  }

  predicate OnTopic(s: State, o: nat, e: EventId) {
    o < |s.log| && s.log[o].event == e && o !in s.acked
  }

  lemma {:induction false} MoveKeepsOnTopic(s: State, h: HandlerId, move: HandlerMove, cfg: Config, o: nat, e: EventId)
    requires HandlerOk(s, h) && h in s.handlers && HandlerAccounted(s, s.handlers[h])
    requires CanMove(s.handlers[h].phase, move) && Waiting(s, e) && e !in s.dlq && OnTopic(s, o, e)
    ensures OnTopic(Moved(s, h, move, cfg), o, e)
  {
  }

  lemma {:induction false} PollKeepsOnTopic(s: State, p: PollerId, e': EventId, poll: PollStep, cfg: Config,
      o: nat, e: EventId)
    requires CanPoll(s, p, e', poll, cfg) && OnTopic(s, o, e)
    ensures OnTopic(Polled(s, p, e', poll, cfg), o, e)
  {
    PollFacts(s, p, e', poll, cfg);
  }

  /** While an event is waited on, its messages are neither acknowledged nor marked. */
  lemma {:induction false} StaysOnTopic(s: State, step: Step, cfg: Config, o: nat, e: EventId)
    requires Shape(s) && Accounted(s) && Enabled(s, step, cfg)
    requires Waiting(s, e) && e !in s.dlq && OnTopic(s, o, e)
    ensures OnTopic(Apply(s, step, cfg), o, e)
  {
    match step
    case Handle(h, move) =>
      assert HandlerOk(s, h) && HandlerAccounted(s, s.handlers[h]);
      MoveKeepsOnTopic(s, h, move, cfg, o, e);
    case Poll(p, e', poll) => PollKeepsOnTopic(s, p, e', poll, cfg, o, e);
    case _ =>
  }

  /** Nothing settles from moment n until m. */
  ghost predicate Unsettled(states: Trace, steps: Schedule, e: EventId, id: InsightId, n: nat, m: nat) {
    forall k: nat {:trigger SettledAt(states, steps, e, id, k)} :: n <= k < m ==> !SettledAt(states, steps, e, id, k)
  }

  lemma {:induction false} UnsettledBefore(states: Trace, steps: Schedule, e: EventId, id: InsightId, n: nat, m: nat)
    requires n < m && Unsettled(states, steps, e, id, n, m)
    ensures Unsettled(states, steps, e, id, n, m - 1) && !SettledAt(states, steps, e, id, m - 1)
  {
  }

  lemma {:induction false} NextAwaits(states: Trace, steps: Schedule, cfg: Config, e: EventId, id: InsightId, m: nat)
    requires IsBehaviour(states, steps, cfg) && Awaits(states(m), e, id) && !SettledAt(states, steps, e, id, m)
    ensures Awaits(states(m + 1), e, id)
  {
    BehaviourKeepsInv(states, steps, cfg, m);
    assert Follows(states, steps, cfg, m);
    WaitsOn(states(m), steps(m), cfg, e, id);
  }

  lemma {:induction false} AwaitsUntil(states: Trace, steps: Schedule, cfg: Config, e: EventId, id: InsightId,
      n: nat, m: nat)
    requires IsBehaviour(states, steps, cfg) && n <= m && Unsettled(states, steps, e, id, n, m)
    requires Awaits(states(n), e, id)
    ensures Awaits(states(m), e, id)
    decreases m
  {
    if n == m {
      assert states(m) == states(n);
    } else {
      UnsettledBefore(states, steps, e, id, n, m);
      AwaitsUntil(states, steps, cfg, e, id, n, m - 1);
      NextAwaits(states, steps, cfg, e, id, m - 1);
    }
  }

  /** At moment n the insight waits for e and message o of e is on the topic. */
  predicate Held(states: Trace, e: EventId, id: InsightId, o: nat, n: nat) {
    Awaits(states(n), e, id) && OnTopic(states(n), o, e)
  }

  lemma {:induction false} NextHeld(states: Trace, steps: Schedule, cfg: Config, e: EventId, id: InsightId,
      o: nat, m: nat)
    requires IsBehaviour(states, steps, cfg) && Held(states, e, id, o, m) && !SettledAt(states, steps, e, id, m)
    ensures Held(states, e, id, o, m + 1)
  {
    NextAwaits(states, steps, cfg, e, id, m);
    BehaviourKeepsInv(states, steps, cfg, m);
    assert Follows(states, steps, cfg, m);
    StaysOnTopic(states(m), steps(m), cfg, o, e);
  }

  lemma {:induction false} HeldUntil(states: Trace, steps: Schedule, cfg: Config, e: EventId, id: InsightId,
      o: nat, n: nat, m: nat)
    requires IsBehaviour(states, steps, cfg) && n <= m && Unsettled(states, steps, e, id, n, m)
    requires Held(states, e, id, o, n)
    ensures Held(states, e, id, o, m)
    decreases m
  {
    if n < m {
      UnsettledBefore(states, steps, e, id, n, m);
      HeldUntil(states, steps, cfg, e, id, o, n, m - 1);
      NextHeld(states, steps, cfg, e, id, o, m - 1);
    }
  }

  /** An attempt on a message of the awaited event is a claim. */
  lemma {:induction false} AttemptClaims(s: State, step: Step, cfg: Config, o: nat, e: EventId, id: InsightId)
    requires Inv(s, cfg) && Awaits(s, e, id) && e !in s.dlq && OnTopic(s, o, e)
    ensures Deliverable(s, o)
    ensures Attempts(s, step, o) ==> Claims(s, step, id)
  {
    assert MessageOk(s, o) && EventOk(s, e);
    if Attempts(s, step, o) {
      assert HandlerOk(s, step.h);
    }
  }

  lemma {:induction false} MessageLeadsToClaim(states: Trace, steps: Schedule, cfg: Config, e: EventId, id: InsightId,
      o: nat, n: nat)
    requires IsBehaviour(states, steps, cfg) && FairConsumer(states, steps)
    requires Awaits(states(n), e, id) && OnTopic(states(n), o, e)
    ensures Settles(states, steps, e, id, n)
  {
    assert AttemptedOrNot(states, steps, o, n);
    var m: nat :| m >= n && (!Deliverable(states(m), o) || Attempts(states(m), steps(m), o));
    if Unsettled(states, steps, e, id, n, m) {
      HeldUntil(states, steps, cfg, e, id, o, n, m);
      BehaviourKeepsInv(states, steps, cfg, m);
      if e !in states(m).dlq {
        AttemptClaims(states(m), steps(m), cfg, o, e, id);
      }
      assert SettledAt(states, steps, e, id, m);
    }
  }

  /** Once sent, the awaited event has a message on the topic. */
  lemma {:induction false} SendPutsOnTopic(s: State, step: Step, cfg: Config, e: EventId)
    requires Inv(s, cfg) && Enabled(s, step, cfg) && Sends(step, e)
    ensures OnTopic(Apply(s, step, cfg), |s.log|, e)
  {
    assert RowOk(s, e);
  }

  lemma {:induction false} SendLeadsToClaim(states: Trace, steps: Schedule, cfg: Config, e: EventId, id: InsightId,
      n: nat)
    requires IsBehaviour(states, steps, cfg) && FairConsumer(states, steps)
    requires Awaits(states(n), e, id) && Sends(steps(n), e)
    ensures Settles(states, steps, e, id, n)
  {
    if !SettledAt(states, steps, e, id, n) {
      NextAwaits(states, steps, cfg, e, id, n);
      BehaviourKeepsInv(states, steps, cfg, n);
      assert Follows(states, steps, cfg, n);
      SendPutsOnTopic(states(n), steps(n), cfg, e);
      MessageLeadsToClaim(states, steps, cfg, e, id, |states(n).log|, n + 1);
      SettlesBefore(states, steps, e, id, n, n + 1);
    }
  }

  lemma {:induction false} UnsentOrOnTopic(s: State, cfg: Config, e: EventId) returns (o: nat)
    requires Inv(s, cfg) && Waiting(s, e) && e !in s.dlq
    ensures PendingRow(s, e) || Quarantined(s, e) || OnTopic(s, o, e)
  {
    o := 0;
    assert Traceable(s, e);
    if Undelivered(s, e) {
      o :| o < |s.log| && o !in s.acked && s.log[o].event == e;
    }
  }

  /** An insight that waits settles some time, or its row is unsent now. */
  lemma {:induction false} SettlesOrUnsent(states: Trace, steps: Schedule, cfg: Config, e: EventId, id: InsightId,
      n: nat)
    requires IsBehaviour(states, steps, cfg) && FairConsumer(states, steps) && Awaits(states(n), e, id)
    ensures Settles(states, steps, e, id, n) || PendingRow(states(n), e) || Quarantined(states(n), e)
  {
    BehaviourKeepsInv(states, steps, cfg, n);
    if e in states(n).dlq {
      assert SettledAt(states, steps, e, id, n);
    } else {
      var o := UnsentOrOnTopic(states(n), cfg, e);
      if OnTopic(states(n), o, e) {
        MessageLeadsToClaim(states, steps, cfg, e, id, o, n);
      }
    }
  }

  /** The same seen from any later moment, at which the row is not sent either. */
  lemma {:induction false} SettlesOrUnsentLater(states: Trace, steps: Schedule, cfg: Config, e: EventId, id: InsightId,
      n: nat, m: nat)
    requires IsBehaviour(states, steps, cfg) && FairConsumer(states, steps) && n <= m && Awaits(states(n), e, id)
    ensures Settles(states, steps, e, id, n)
            || ((PendingRow(states(m), e) || Quarantined(states(m), e)) && !Sends(steps(m), e))
  {
    if Unsettled(states, steps, e, id, n, m) {
      AwaitsUntil(states, steps, cfg, e, id, n, m);
      SettlesOrUnsent(states, steps, cfg, e, id, m);
      if Sends(steps(m), e) {
        SendLeadsToClaim(states, steps, cfg, e, id, m);
      }
      if Settles(states, steps, e, id, m) {
        SettlesBefore(states, steps, e, id, n, m);
      }
    }
  }

  /** Liveness: with a fair consumer, fair pollers and an operator who replays what was
      quarantined, every QUEUED insight is claimed in the end, unless the event of its
      latest queueing is dead-lettered. */
  lemma {:induction false} QueuedLeadsToClaim(states: Trace, steps: Schedule, cfg: Config, n: nat, id: InsightId)
    requires IsBehaviour(states, steps, cfg)
    requires FairConsumer(states, steps) && FairPoller(states, steps) && FairOperator(states)
    requires id in states(n).insights && states(n).insights[id].status == Queued
    ensures id in states(n).latest && Settles(states, steps, states(n).latest[id], id, n)
  {
    BehaviourKeepsInv(states, steps, cfg, n);
    assert LatestOk(states(n), id);
    AwaitedLeadsToClaim(states, steps, cfg, states(n).latest[id], id, n);
  }

  lemma {:induction false} AwaitedLeadsToClaim(states: Trace, steps: Schedule, cfg: Config, e: EventId, id: InsightId,
      n: nat)
    requires IsBehaviour(states, steps, cfg) && Awaits(states(n), e, id)
    requires FairConsumer(states, steps) && FairPoller(states, steps) && FairOperator(states)
    ensures Settles(states, steps, e, id, n)
  {
    if SentLater(steps, e, n) {
      var m: nat :| m >= n && Sends(steps(m), e);
      SettlesOrUnsentLater(states, steps, cfg, e, id, n, m);
    } else {
      var m: nat :| m >= n && NeverPending(states, e, m);
      assert ReplayedLater(states, e, m);
      var k: nat :| k >= m && !Quarantined(states(k), e);
      SettlesOrUnsentLater(states, steps, cfg, e, id, n, k);
    }
  }

  // ---------- such behaviours exist ----------

  /** Nothing is left to relay, to replay or to deliver. */
  ghost predicate Quiet(s: State) {
    && (forall e :: !PendingRow(s, e) && !Quarantined(s, e))
    && (forall o: nat {:trigger Deliverable(s, o)} :: !Deliverable(s, o))
  }

  /** Any run that comes to rest goes on for ever as a fair behaviour, the clock aside. */
  lemma {:induction false} QuietRunIsFair(run: seq<State>, moves: seq<Step>, cfg: Config)
    returns (states: Trace, steps: Schedule)
    requires IsRun(run, moves, cfg) && Quiet(run[|moves|])
    ensures IsBehaviour(states, steps, cfg) && forall n :: 0 <= n < |run| ==> states(n) == run[n]
    ensures FairConsumer(states, steps) && FairPoller(states, steps) && FairOperator(states)
  {
    var last := run[|moves|];
    states := (n: nat) => if n < |run| then run[n] else last;
    steps := (n: nat) => if n < |moves| then moves[n] else Tick(last.now);
    forall n: nat ensures Follows(states, steps, cfg, n) {
      assert Linked(run, moves, cfg, n);
    }
    forall o: nat, n: nat ensures AttemptedOrNot(states, steps, o, n) {
      assert !Deliverable(states(n + |run|), o);
    }
    forall e, n: nat ensures PendingNoMore(states, e, n) && ReplayedLater(states, e, n) {
      assert NeverPending(states, e, n + |run|);
      assert !Quarantined(states(n + |run|), e);
    }
  }

  lemma {:induction false} RunGrows(run: seq<State>, moves: seq<Step>, step: Step, cfg: Config)
    requires IsRun(run, moves, cfg) && Enabled(run[|moves|], step, cfg)
    ensures IsRun(run + [Apply(run[|moves|], step, cfg)], moves + [step], cfg)
  {
    var run', moves' := run + [Apply(run[|moves|], step, cfg)], moves + [step];
    forall k ensures Linked(run', moves', cfg, k) {
      assert Linked(run, moves, cfg, k);
    }
  }

  /** A run that requested and sent this message, and whose handler 0 stands in this phase. */
  ghost predicate Life(run: seq<State>, moves: seq<Step>, cfg: Config, msg: Message, phase: Phase) {
    && IsRun(run, moves, cfg) && |moves| >= 1
    && msg.insight in run[1].insights && run[1].insights[msg.insight].status == Queued
    && var s := run[|moves|];
       && s.outbox.Keys == {msg.event} && s.outbox[msg.event].status == SENT
       && s.log == [msg] && s.acked == {} && s.handlers == map[0 := Handler(0, msg, phase)]
       && Visible(s.insights, msg.insight, msg.user)
       && (phase.Received? ==> s.insights[msg.insight].status == Queued)
  }

  lemma {:induction false} LifeStarts(cfg: Config, id: InsightId, user: UserId, e: EventId)
    returns (run: seq<State>, moves: seq<Step>)
    requires INSIGHT_REQUESTED in cfg.topics
    ensures Life(run, moves, cfg, RequestedEvent(e, id, user), Received)
  {
    var s0 := Init();
    var s1 := Apply(s0, Request(id, user, e), cfg);
    var s2 := Apply(s1, Poll(0, e, Send), cfg);
    run, moves := [s0], [];
    RunGrows(run, moves, Request(id, user, e), cfg);
    run, moves := run + [s1], moves + [Request(id, user, e)];
    RunGrows(run, moves, Poll(0, e, Send), cfg);
    run, moves := run + [s2], moves + [Poll(0, e, Send)];
    assert s2.log == [RequestedEvent(e, id, user)] && s2.processed == {};
    RunGrows(run, moves, Deliver(0, 0), cfg);
    run, moves := run + [Apply(s2, Deliver(0, 0), cfg)], moves + [Deliver(0, 0)];
  }

  /** Every move of handler 0 but the last leads to its next phase. */
  lemma {:induction false} LifeGoesOn(run: seq<State>, moves: seq<Step>, cfg: Config, msg: Message, phase: Phase,
      move: HandlerMove, next: Phase)
    returns (run': seq<State>, moves': seq<Step>)
    requires Life(run, moves, cfg, msg, phase) && CanMove(phase, move) && !move.Ack? && !next.Received?
    requires PhaseAfter(run[|moves|], run[|moves|].handlers[0], move, cfg).Some?
    requires PhaseAfter(run[|moves|], run[|moves|].handlers[0], move, cfg).value == next
    ensures Life(run', moves', cfg, msg, next)
  {
    var s, step := run[|moves|], Handle(0, move);
    RunGrows(run, moves, step, cfg);
    run', moves' := run + [Apply(s, step, cfg)], moves + [step];
    TableAfterIsLegal(s.insights, s.handlers[0], move, cfg.reaperMaxRetries);
  }

  lemma {:induction false} LifeEnds(run: seq<State>, moves: seq<Step>, cfg: Config, msg: Message)
    returns (run': seq<State>, moves': seq<Step>)
    requires Life(run, moves, cfg, msg, Acking)
    ensures IsRun(run', moves', cfg) && |moves'| >= 1 && run'[1] == run[1] && Quiet(run'[|moves'|])
  {
    var s, step := run[|moves|], Handle(0, Ack);
    RunGrows(run, moves, step, cfg);
    run', moves' := run + [Apply(s, step, cfg)], moves + [step];
  }

  /** In particular there is one in which an insight is QUEUED: requested, relayed, delivered,
      claimed, failed for want of data, marked and acknowledged. */
  lemma {:induction false} FairLifeExists(cfg: Config, id: InsightId, user: UserId, e: EventId)
    returns (states: Trace, steps: Schedule)
    requires INSIGHT_REQUESTED in cfg.topics
    ensures IsBehaviour(states, steps, cfg)
    ensures FairConsumer(states, steps) && FairPoller(states, steps) && FairOperator(states)
    ensures id in states(1).insights && states(1).insights[id].status == Queued
  {
    var msg := RequestedEvent(e, id, user);
    var run, moves := LifeStarts(cfg, id, user, e);
    run, moves := LifeGoesOn(run, moves, cfg, msg, Received, ClaimInsight(0), Building);
    run, moves := LifeGoesOn(run, moves, cfg, msg, Building, NoData(""), RecordingFailure("", false));
    run, moves := LifeGoesOn(run, moves, cfg, msg, RecordingFailure("", false), RecordInsightFailure, Finishing);
    run, moves := LifeGoesOn(run, moves, cfg, msg, Finishing, MarkProcessed, Acking);
    assert msg.insight == id;
    run, moves := LifeEnds(run, moves, cfg, msg);
    states, steps := QuietRunIsFair(run, moves, cfg);
    assert states(1) == run[1];
  }
}
