/** What every step of the delivery protocol keeps. */
module DeliveryInvariant {
  import opened Wrappers
  import opened InsightRows
  import opened Outbox
  import opened Delivery

  // ---------- the invariant ----------

  predicate Registered(s: State, m: Message) {
    m.event in s.events && s.events[m.event] == m
  }

  predicate EventOk(s: State, e: EventId) {
    e in s.events ==>
      && s.events[e].insight in s.insights
      && s.events[e] == RequestedEvent(e, s.events[e].insight, s.insights[s.events[e].insight].user)
  }

  predicate LatestOk(s: State, id: InsightId) {
    id in s.insights ==>
      id in s.latest && s.latest[id] in s.events && s.events[s.latest[id]].insight == id
  }

  predicate RowOk(s: State, e: EventId) {
    e in s.outbox ==> s.outbox[e].msg.event == e && Registered(s, s.outbox[e].msg)
  }

  predicate MessageOk(s: State, o: nat) {
    o < |s.log| ==> Registered(s, s.log[o])
  }

  predicate HandlerOk(s: State, h: HandlerId) {
    h in s.handlers ==> s.handlers[h].offset < |s.log| && s.handlers[h].msg == s.log[s.handlers[h].offset]
  }

  /** Every reference in every store resolves, and to the right owner. */
  ghost predicate Shape(s: State) {
    && s.processed <= s.events.Keys
    && s.dlq <= s.events.Keys
    && (forall o :: o in s.acked ==> o < |s.log|)
    && (forall e {:trigger EventOk(s, e)} :: EventOk(s, e))
    && (forall id {:trigger LatestOk(s, id)} :: LatestOk(s, id))
    && (forall e {:trigger RowOk(s, e)} :: RowOk(s, e))
    && (forall o {:trigger MessageOk(s, o)} :: MessageOk(s, o))
    && (forall h {:trigger HandlerOk(s, h)} :: HandlerOk(s, h))
  }

  /** The insight of e is QUEUED and e is the event of its latest queueing. */
  predicate Waiting(s: State, e: EventId) {
    && e in s.events
    && s.events[e].insight in s.insights && s.insights[s.events[e].insight].status == Queued
    && s.events[e].insight in s.latest && s.latest[s.events[e].insight] == e
  }

  predicate Done(s: State, e: EventId) {
    !Waiting(s, e) || e in s.dlq
  }

  predicate PastClaim(p: Phase) {
    p.Building? || p.Generated? || p.RecordingFailure? || p.Finishing? || p.Acking?
  }

  /** A handler past its claim, or parked, has an event that nothing undelivered waits on. */
  predicate HandlerAccounted(s: State, hd: Handler) {
    && (PastClaim(hd.phase) ==> Done(s, hd.msg.event))
    && (hd.phase.Parked? ==> hd.msg.event in s.dlq)
  }

  ghost predicate Accounted(s: State) {
    && (forall e :: e in s.processed ==> Done(s, e))
    && (forall h :: h in s.handlers ==> HandlerAccounted(s, s.handlers[h]))
  }

  /** An unacknowledged, unmarked message of e is on the topic. */
  ghost predicate Undelivered(s: State, e: EventId) {
    e !in s.processed && exists o :: 0 <= o < |s.log| && o !in s.acked && s.log[o].event == e
  }

  ghost predicate Traceable(s: State, e: EventId) {
    || (e in s.outbox && s.outbox[e].status != SENT)
    || Undelivered(s, e)
    || e in s.dlq
  }

  ghost predicate NoneStranded(s: State) {
    forall e :: Waiting(s, e) ==> Traceable(s, e)
  }

  /** A relayed row has its message on the topic. */
  ghost predicate SentWasPublished(s: State) {
    forall e :: e in s.outbox && s.outbox[e].status == SENT ==> exists o :: 0 <= o < |s.log| && s.log[o].event == e
  }

  /** The handlers that hold a claim of id and may still call the AI port with it. */
  function Builders(s: State, id: InsightId): set<HandlerId> {
    set h | h in s.handlers && s.handlers[h].phase == Building && s.handlers[h].msg.insight == id
  }

  function Count(m: map<InsightId, nat>, id: InsightId): nat {
    if id in m then m[id] else 0
  }

  /** Claims are the retries so far, plus the one that left QUEUED; each claim pays for one AI call. */
  predicate Counted(s: State, id: InsightId, cfg: Config)
    requires id in s.insights
  {
    var r := s.insights[id];
    && r.status != Pending
    && r.retryCount <= cfg.reaperMaxRetries
    && Count(s.claims, id) == (if r.status == Queued then r.retryCount else r.retryCount + 1)
    && Count(s.aiCalls, id) + |Builders(s, id)| <= Count(s.claims, id)
    && (r.status == Processing ==> r.deadline.Some?)
  }

  ghost predicate AllCounted(s: State, cfg: Config) {
    forall id :: id in s.insights ==> Counted(s, id, cfg)
  }

  ghost predicate Inv(s: State, cfg: Config) {
    Shape(s) && Accounted(s) && NoneStranded(s) && SentWasPublished(s) && AllCounted(s, cfg)
  }

  // ---------- what one handler move can do ----------

  /** Everything the proofs below need to know about a handler's move. */
  ghost predicate MoveFacts(s: State, h: HandlerId, move: HandlerMove, s': State, cfg: Config)
    requires h in s.handlers
  {
    var hd := s.handlers[h];
    var e := hd.msg.event;
    && s' == s.(handlers := s'.handlers, insights := s'.insights, acked := s'.acked, processed := s'.processed,
                failures := s'.failures, dlq := s'.dlq, claims := s'.claims, aiCalls := s'.aiCalls)
    && LegalUpdate(s.insights, s'.insights, cfg.reaperMaxRetries)
    && (forall id :: id in s.insights && s'.insights[id].status == Queued ==> s.insights[id].status == Queued)
    && (s'.handlers == s.handlers - {h}
        || (h in s'.handlers && s'.handlers == s.handlers[h := hd.(phase := s'.handlers[h].phase)]))
    && (s'.acked == s.acked || (s'.acked == s.acked + {hd.offset} && hd.phase.Acking?))
    && (s'.processed == s.processed || (s'.processed == s.processed + {e} && (hd.phase.Finishing? || hd.phase.Parked?)))
    && (s'.dlq == s.dlq || s'.dlq == s.dlq + {e})
    && (h in s'.handlers && PastClaim(s'.handlers[h].phase) ==>
          PastClaim(hd.phase) || hd.phase.Parked? || (hd.phase.Received? && move.ClaimInsight?))
    && (h in s'.handlers && s'.handlers[h].phase.Parked? ==> e in s'.dlq)
    && (move.ClaimInsight? && Visible(s.insights, hd.msg.insight, hd.msg.user) ==>
          s'.insights[hd.msg.insight].status != Queued)
  }

  lemma {:induction false} MovesHaveFacts(s: State, h: HandlerId, move: HandlerMove, cfg: Config)
    requires h in s.handlers && CanMove(s.handlers[h].phase, move)
    ensures MoveFacts(s, h, move, Moved(s, h, move, cfg), cfg)
  {
    TableAfterIsLegal(s.insights, s.handlers[h], move, cfg.reaperMaxRetries);
  }

  /** Stands for the content where a move has none. */
  const BLANK: Content := Content(Answer("", "", 0), NoContext, 0, None)

  lemma {:induction false} TableAfterIsLegal(t: Table, hd: Handler, move: HandlerMove, maxRetries: nat)
    requires CanMove(hd.phase, move)
    ensures LegalUpdate(t, TableAfter(t, hd, move), maxRetries)
    ensures forall id :: id in t && TableAfter(t, hd, move)[id].status == Queued ==> t[id].status == Queued
  {
    assert forall id :: id in t ==> LegalMove(t[id], t[id], maxRetries);
    match move
    case ClaimInsight(deadline) =>
      TransactionsAreLegal(t, hd.msg.insight, hd.msg.user, deadline, BLANK, "", maxRetries, 0);
    case CompleteInsight(error) =>
      TransactionsAreLegal(t, hd.msg.insight, hd.msg.user, 0, hd.phase.content, error, maxRetries, 0);
    case RecordInsightFailure =>
      TransactionsAreLegal(t, hd.msg.insight, hd.msg.user, 0, BLANK,
          hd.phase.error, maxRetries, 0);
    case _ =>
  }

  // ---------- Shape ----------

  lemma {:induction false} MoveKeepsShape(s: State, h: HandlerId, move: HandlerMove, s': State, cfg: Config)
    requires Shape(s) && h in s.handlers && MoveFacts(s, h, move, s', cfg)
    ensures Shape(s')
  {
    assert HandlerOk(s, h) && MessageOk(s, s.handlers[h].offset);
    forall e ensures EventOk(s', e) && RowOk(s', e) { assert EventOk(s, e) && RowOk(s, e); }
    forall id ensures LatestOk(s', id) { assert LatestOk(s, id); }
    forall o ensures MessageOk(s', o) { assert MessageOk(s, o); }
    forall k ensures HandlerOk(s', k) { assert HandlerOk(s, k); }
  }

  /** A poller only changes rows in place, and only publishes the row it holds. */
  lemma {:induction false} PollFacts(s: State, p: PollerId, e: EventId, poll: PollStep, cfg: Config)
    requires CanPoll(s, p, e, poll, cfg)
    ensures var s' := Polled(s, p, e, poll, cfg);
            && s' == s.(outbox := s'.outbox, log := s'.log, owing := s'.owing, sinceReplay := s'.sinceReplay)
            && s'.outbox.Keys == s.outbox.Keys
            && (forall x :: x in s.outbox ==> s'.outbox[x].msg == s.outbox[x].msg)
            && (forall x :: x in s.outbox && x != e ==> s'.outbox[x] == s.outbox[x])
            && (e in s.outbox && s'.outbox[e].status != s.outbox[e].status ==>
                  poll.Send? || s'.outbox[e].status == FAILED)
            && (s'.log == s.log || (e in s.outbox && s'.log == s.log + [s.outbox[e].msg]))
            && (poll.Send? ==> e in s.outbox && s'.outbox[e].status == SENT && s'.log == s.log + [s.outbox[e].msg])
  {
  }

  lemma {:induction false} PollKeepsShape(s: State, p: PollerId, e: EventId, poll: PollStep, cfg: Config)
    requires Shape(s) && CanPoll(s, p, e, poll, cfg)
    ensures Shape(Polled(s, p, e, poll, cfg))
  {
    PollFacts(s, p, e, poll, cfg);
    LongerLogKeepsShape(s, Polled(s, p, e, poll, cfg), e);
  }

  lemma {:induction false} LongerLogKeepsShape(s: State, s': State, e: EventId)
    requires Shape(s)
    requires s' == s.(outbox := s'.outbox, log := s'.log, owing := s'.owing, sinceReplay := s'.sinceReplay)
    requires s'.outbox.Keys == s.outbox.Keys
    requires forall x :: x in s.outbox ==> s'.outbox[x].msg == s.outbox[x].msg
    requires s'.log == s.log || (e in s.outbox && s'.log == s.log + [s.outbox[e].msg])
    ensures Shape(s')
  {
    assert RowOk(s, e);
    forall x ensures EventOk(s', x) && RowOk(s', x) { assert EventOk(s, x) && RowOk(s, x); }
    forall id ensures LatestOk(s', id) { assert LatestOk(s, id); }
    forall o ensures MessageOk(s', o) { assert MessageOk(s, o); }
    forall h ensures HandlerOk(s', h) { assert HandlerOk(s, h); }
  }

  lemma {:induction false} ReplayKeepsShape(s: State, es: set<EventId>)
    requires Shape(s)
    ensures Shape(Replayed(s, es))
  {
    var s' := Replayed(s, es);
    forall e ensures EventOk(s', e) && RowOk(s', e) { assert EventOk(s, e) && RowOk(s, e); }
    forall id ensures LatestOk(s', id) { assert LatestOk(s, id); }
    forall o ensures MessageOk(s', o) { assert MessageOk(s, o); }
    forall h ensures HandlerOk(s', h) { assert HandlerOk(s, h); }
  }

  lemma {:induction false} RequestKeepsShape(s: State, id: InsightId, user: UserId, event: EventId)
    requires Shape(s) && id !in s.insights && event !in s.events
    ensures Shape(Requested(s, id, user, event))
  {
    var s' := Requested(s, id, user, event);
    forall e ensures EventOk(s', e) && RowOk(s', e) { assert EventOk(s, e) && RowOk(s, e); }
    forall k ensures LatestOk(s', k) { assert LatestOk(s, k); }
    forall o ensures MessageOk(s', o) { assert MessageOk(s, o); }
    forall h ensures HandlerOk(s', h) { assert HandlerOk(s, h); }
  }

  /** Every requeued insight has its fresh event among the appended ones. */
  lemma {:induction false} AppendedFor(t: Table, emitted: map<InsightId, EventId>, id: InsightId)
    requires emitted.Keys <= t.Keys && Injective(emitted) && id in emitted
    ensures emitted[id] in Appended(t, emitted)
    ensures Appended(t, emitted)[emitted[id]] == RequestedEvent(emitted[id], id, t[id].user)
  {
    assert emitted[id] in emitted.Values && Source(emitted, emitted[id]) == id;
  }

  /** A tick's effect on one event. */
  lemma {:induction false} ReapedAt(s: State, emitted: map<InsightId, EventId>, cfg: Config, e: EventId)
    requires CanReap(s, emitted, cfg)
    ensures var s' := Reaped(s, emitted, cfg); var m := Appended(s.insights, emitted);
            && (e in s'.events <==> e in s.events || e in m)
            && (e in s'.events ==> s'.events[e] == if e in m then m[e] else s.events[e])
            && (e in s'.outbox <==> e in s.outbox || e in m)
            && (e in s'.outbox ==> s'.outbox[e] == if e in m then NewRow(m[e]) else s.outbox[e])
            && (e in m ==> e !in s.events && m[e].insight in emitted && emitted[m[e].insight] == e
                           && m[e] == RequestedEvent(e, m[e].insight, s.insights[m[e].insight].user))
  {
  }

  lemma {:induction false} ReapKeepsEvent(s: State, emitted: map<InsightId, EventId>, cfg: Config, e: EventId)
    requires EventOk(s, e) && CanReap(s, emitted, cfg)
    ensures EventOk(Reaped(s, emitted, cfg), e)
  {
    ReapedAt(s, emitted, cfg, e);
  }

  lemma {:induction false} ReapKeepsRow(s: State, emitted: map<InsightId, EventId>, cfg: Config, e: EventId)
    requires RowOk(s, e) && CanReap(s, emitted, cfg)
    ensures RowOk(Reaped(s, emitted, cfg), e)
  {
    ReapedAt(s, emitted, cfg, e);
  }

  lemma {:induction false} ReapKeepsLatest(s: State, emitted: map<InsightId, EventId>, cfg: Config, id: InsightId)
    requires LatestOk(s, id) && CanReap(s, emitted, cfg)
    ensures LatestOk(Reaped(s, emitted, cfg), id)
  {
    if id in emitted {
      AppendedFor(s.insights, emitted, id);
      ReapedAt(s, emitted, cfg, emitted[id]);
    } else if id in s.insights {
      ReapedAt(s, emitted, cfg, s.latest[id]);
    }
  }

  lemma {:induction false} ReapKeepsStores(s: State, emitted: map<InsightId, EventId>, cfg: Config)
    requires Shape(s) && CanReap(s, emitted, cfg)
    ensures var s' := Reaped(s, emitted, cfg);
            && s'.log == s.log && s'.acked == s.acked && s'.handlers == s.handlers
            && s'.processed == s.processed <= s'.events.Keys && s'.dlq == s.dlq <= s'.events.Keys
            && forall o: nat :: MessageOk(s', o)
  {
    var s' := Reaped(s, emitted, cfg);
    forall o: nat ensures MessageOk(s', o) {
      assert MessageOk(s, o);
      if o < |s.log| { ReapedAt(s, emitted, cfg, s.log[o].event); }
    }
  }

  lemma {:induction false} ReapKeepsShape(s: State, emitted: map<InsightId, EventId>, cfg: Config)
    requires Shape(s) && CanReap(s, emitted, cfg)
    ensures Shape(Reaped(s, emitted, cfg))
  {
    var s' := Reaped(s, emitted, cfg);
    forall e ensures EventOk(s', e) { assert EventOk(s, e); ReapKeepsEvent(s, emitted, cfg, e); }
    forall e ensures RowOk(s', e) { assert RowOk(s, e); ReapKeepsRow(s, emitted, cfg, e); }
    forall id ensures LatestOk(s', id) { assert LatestOk(s, id); ReapKeepsLatest(s, emitted, cfg, id); }
    ReapKeepsStores(s, emitted, cfg);
    forall h ensures HandlerOk(s', h) { assert HandlerOk(s, h); }
  }

  lemma {:induction false} StoreStepKeepsShape(s: State, step: Step, cfg: Config)
    requires Shape(s) && Enabled(s, step, cfg)
    requires !step.Request? && !step.ReaperTick? && !step.Poll? && !step.Replay? && !step.Handle?
    ensures Shape(Apply(s, step, cfg))
  {
    var s' := Apply(s, step, cfg);
    forall e ensures EventOk(s', e) && RowOk(s', e) { assert EventOk(s, e) && RowOk(s, e); }
    forall id ensures LatestOk(s', id) { assert LatestOk(s, id); }
    forall o ensures MessageOk(s', o) { assert MessageOk(s, o); }
    forall h ensures HandlerOk(s', h) { assert HandlerOk(s, h); }
  }

  lemma {:induction false} StepKeepsShape(s: State, step: Step, cfg: Config)
    requires Shape(s) && Enabled(s, step, cfg)
    ensures Shape(Apply(s, step, cfg))
  {
    match step
    case Request(id, user, event) => RequestKeepsShape(s, id, user, event);
    case ReaperTick(emitted) => ReapKeepsShape(s, emitted, cfg);
    case Poll(p, e, poll) => PollKeepsShape(s, p, e, poll, cfg);
    case Replay(es) => ReplayKeepsShape(s, es);
    case Handle(h, move) =>
      MovesHaveFacts(s, h, move, cfg);
      MoveKeepsShape(s, h, move, Moved(s, h, move, cfg), cfg);
    case _ => StoreStepKeepsShape(s, step, cfg);
  }

  // ---------- insight rows ----------

  /** The insight table moves only by legal moves, and no row disappears. */
  lemma {:induction false} StepMovesLegally(s: State, step: Step, cfg: Config)
    requires Enabled(s, step, cfg)
    ensures var s' := Apply(s, step, cfg);
            && s.insights.Keys <= s'.insights.Keys
            && forall id :: id in s.insights ==> LegalMove(s.insights[id], s'.insights[id], cfg.reaperMaxRetries)
  {
    match step
    case Handle(h, move) => MovesHaveFacts(s, h, move, cfg);
    case ReaperTick(emitted) =>
      TransactionsAreLegal(s.insights, 0, 0, 0, BLANK, "", cfg.reaperMaxRetries, s.now);
    case Poll(p, e, poll) => PollFacts(s, p, e, poll, cfg);
    case _ =>
  }

  // ---------- nothing waits on a handled event ----------

  lemma {:induction false} MoveKeepsDone(s: State, h: HandlerId, move: HandlerMove, s': State, cfg: Config, e: EventId)
    requires h in s.handlers && MoveFacts(s, h, move, s', cfg) && EventOk(s, e)
    ensures Waiting(s', e) ==> Waiting(s, e)
    ensures Done(s, e) ==> Done(s', e)
  {
  }

  lemma {:induction false} ReapKeepsDone(s: State, emitted: map<InsightId, EventId>, cfg: Config, e: EventId)
    requires e in s.events && EventOk(s, e) && CanReap(s, emitted, cfg)
    ensures Waiting(Reaped(s, emitted, cfg), e) ==> Waiting(s, e)
    ensures Done(s, e) ==> Done(Reaped(s, emitted, cfg), e)
  {
    ReapedAt(s, emitted, cfg, e);
    assert s.events[e].insight in emitted ==> emitted[s.events[e].insight] != e;
  }

  /** An event nothing waits on is never waited on again: every requeue has a fresh event. */
  lemma {:induction false} OldEventsStaySettled(s: State, step: Step, cfg: Config, e: EventId)
    requires Shape(s) && Enabled(s, step, cfg) && e in s.events
    ensures Waiting(Apply(s, step, cfg), e) ==> Waiting(s, e)
    ensures Done(s, e) ==> Done(Apply(s, step, cfg), e)
  {
    assert EventOk(s, e);
    match step
    case Handle(h, move) =>
      MovesHaveFacts(s, h, move, cfg);
      MoveKeepsDone(s, h, move, Moved(s, h, move, cfg), cfg, e);
    case ReaperTick(emitted) => ReapKeepsDone(s, emitted, cfg, e);
    case Poll(p, e', poll) => PollFacts(s, p, e', poll, cfg);
    case _ =>
  }

  /** Whatever a claim finds, nothing waits on the claimed event afterwards. */
  lemma {:induction false} ClaimSettles(s: State, h: HandlerId, move: HandlerMove, s': State, cfg: Config)
    requires Shape(s) && h in s.handlers && move.ClaimInsight? && MoveFacts(s, h, move, s', cfg)
    ensures !Waiting(s', s.handlers[h].msg.event)
  {
    assert HandlerOk(s, h) && MessageOk(s, s.handlers[h].offset) && EventOk(s, s.handlers[h].msg.event);
  }

  lemma {:induction false} MoveKeepsAccounted(s: State, h: HandlerId, move: HandlerMove, s': State, cfg: Config)
    requires Shape(s) && Accounted(s) && h in s.handlers && MoveFacts(s, h, move, s', cfg)
    ensures Accounted(s')
  {
    forall e | e in s.events ensures Done(s, e) ==> Done(s', e) {
      assert EventOk(s, e);
      MoveKeepsDone(s, h, move, s', cfg, e);
    }
    assert HandlerAccounted(s, s.handlers[h]);
    forall k | k in s'.handlers ensures HandlerAccounted(s', s'.handlers[k]) {
      assert HandlerOk(s, k) && MessageOk(s, s.handlers[k].offset) && HandlerAccounted(s, s.handlers[k]);
      if k == h && move.ClaimInsight? {
        ClaimSettles(s, h, move, s', cfg);
      }
    }
  }

  /** Steps of the other processes touch no mark and no handler but a new one. */
  lemma {:induction false} OtherStepKeepsAccounted(s: State, step: Step, cfg: Config)
    requires Shape(s) && Accounted(s) && Enabled(s, step, cfg) && !step.Handle?
    ensures Accounted(Apply(s, step, cfg))
  {
    var s' := Apply(s, step, cfg);
    if step.Poll? { PollFacts(s, step.p, step.e, step.poll, cfg); }
    assert s'.dlq == s.dlq && s'.processed <= s.processed;
    forall e | e in s'.processed ensures Done(s', e) {
      OldEventsStaySettled(s, step, cfg, e);
    }
    forall k | k in s'.handlers ensures HandlerAccounted(s', s'.handlers[k]) {
      if k in s.handlers {
        assert s'.handlers[k] == s.handlers[k];
        assert HandlerOk(s, k) && MessageOk(s, s.handlers[k].offset) && HandlerAccounted(s, s.handlers[k]);
        OldEventsStaySettled(s, step, cfg, s.handlers[k].msg.event);
      }
    }
  }

  lemma {:induction false} StepKeepsAccounted(s: State, step: Step, cfg: Config)
    requires Shape(s) && Accounted(s) && Enabled(s, step, cfg)
    ensures Accounted(Apply(s, step, cfg))
  {
    match step
    case Handle(h, move) =>
      MovesHaveFacts(s, h, move, cfg);
      MoveKeepsAccounted(s, h, move, Moved(s, h, move, cfg), cfg);
    case _ => OtherStepKeepsAccounted(s, step, cfg);
  }

  // ---------- no queued insight is stranded ----------

  lemma {:induction false} MoveKeepsTraceable(s: State, h: HandlerId, move: HandlerMove, s': State, cfg: Config,
      e: EventId)
    requires Shape(s) && Accounted(s) && h in s.handlers && MoveFacts(s, h, move, s', cfg)
    requires Waiting(s, e) && Traceable(s, e)
    ensures Traceable(s', e)
  {
    var hd := s.handlers[h];
    assert HandlerAccounted(s, hd) && HandlerOk(s, h);
    if Undelivered(s, e) && e !in s'.dlq {
      var o :| 0 <= o < |s.log| && o !in s.acked && s.log[o].event == e;
      assert o !in s'.acked && e !in s'.processed;
    }
  }

  lemma {:induction false} PollKeepsTraceable(s: State, p: PollerId, e': EventId, poll: PollStep, cfg: Config,
      e: EventId)
    requires Shape(s) && Accounted(s) && CanPoll(s, p, e', poll, cfg)
    requires Waiting(s, e) && Traceable(s, e)
    ensures Traceable(Polled(s, p, e', poll, cfg), e)
  {
    var s' := Polled(s, p, e', poll, cfg);
    PollFacts(s, p, e', poll, cfg);
    assert RowOk(s, e);
    if poll.Send? && e == e' {
      assert s'.log[|s.log|].event == e && |s.log| !in s'.acked;
    } else if Undelivered(s, e) {
      var o :| 0 <= o < |s.log| && o !in s.acked && s.log[o].event == e;
      assert s'.log[o].event == e;
    }
  }

  lemma {:induction false} OtherStepKeepsTraceable(s: State, step: Step, cfg: Config, e: EventId)
    requires Shape(s) && Accounted(s) && Enabled(s, step, cfg) && !step.Handle? && !step.Poll?
    requires Waiting(s, e) && Traceable(s, e)
    ensures Traceable(Apply(s, step, cfg), e)
  {
    var s' := Apply(s, step, cfg);
    if step.ReaperTick? { ReapedAt(s, step.emitted, cfg, e); }
    assert s'.log == s.log && s'.dlq == s.dlq;
    if Undelivered(s, e) {
      var o :| 0 <= o < |s.log| && o !in s.acked && s.log[o].event == e;
      assert o !in s'.acked && e !in s'.processed;
    }
  }

  lemma {:induction false} StepKeepsTraceable(s: State, step: Step, cfg: Config, e: EventId)
    requires Shape(s) && Accounted(s) && NoneStranded(s) && Enabled(s, step, cfg)
    requires Waiting(Apply(s, step, cfg), e)
    ensures Traceable(Apply(s, step, cfg), e)
  {
    if e in s.events {
      OldEventsStaySettled(s, step, cfg, e);
      match step
      case Handle(h, move) =>
        MovesHaveFacts(s, h, move, cfg);
        MoveKeepsTraceable(s, h, move, Moved(s, h, move, cfg), cfg, e);
      case Poll(p, e', poll) => PollKeepsTraceable(s, p, e', poll, cfg, e);
      case _ => OtherStepKeepsTraceable(s, step, cfg, e);
    } else {
      NewEventsArePending(s, step, cfg, e);
    }
  }

  lemma {:induction false} NewEventsArePending(s: State, step: Step, cfg: Config, e: EventId)
    requires Enabled(s, step, cfg) && e !in s.events && e in Apply(s, step, cfg).events
    ensures PendingRow(Apply(s, step, cfg), e)
  {
    match step
    case ReaperTick(emitted) => ReapedAt(s, emitted, cfg, e);
    case Poll(p, e', poll) => PollFacts(s, p, e', poll, cfg);
    case Handle(h, move) => MovesHaveFacts(s, h, move, cfg);
    case _ =>
  }

  // ---------- SENT rows were published ----------

  lemma {:induction false} StepKeepsSentWasPublished(s: State, step: Step, cfg: Config, e: EventId)
    requires Shape(s) && SentWasPublished(s) && Enabled(s, step, cfg)
    requires e in Apply(s, step, cfg).outbox && Apply(s, step, cfg).outbox[e].status == SENT
    ensures exists o :: 0 <= o < |Apply(s, step, cfg).log| && Apply(s, step, cfg).log[o].event == e
  {
    var s' := Apply(s, step, cfg);
    match step {
      case Poll(p, e', poll) => PollFacts(s, p, e', poll, cfg);
      case Handle(h, move) => MovesHaveFacts(s, h, move, cfg);
      case ReaperTick(emitted) => ReapedAt(s, emitted, cfg, e);
      case _ =>
    }
    assert s.log <= s'.log;
    if e in s.outbox && s.outbox[e].status == SENT {
      var o :| 0 <= o < |s.log| && s.log[o].event == e;
      assert s'.log[o].event == e;
    } else {
      assert RowOk(s, e);
      assert s'.log[|s.log|].event == e;
    }
  }

  // ---------- claims, retries and AI calls ----------

  /** A move changes the set of builders by its own handler at most. */
  lemma {:induction false} BuildersMove(s: State, h: HandlerId, move: HandlerMove, s': State, cfg: Config,
      id: InsightId)
    requires h in s.handlers && MoveFacts(s, h, move, s', cfg)
    ensures var was := s.handlers[h].phase == Building && s.handlers[h].msg.insight == id;
            var will := h in s'.handlers && s'.handlers[h].phase == Building && s.handlers[h].msg.insight == id;
            |Builders(s', id)| == |Builders(s, id)| + (if will then 1 else 0) - (if was then 1 else 0)
  {
    OnlyHandlerMoves(s, h, move, s', cfg, id);
    OneMemberMoves(Builders(s, id), Builders(s', id), h);
  }

  lemma {:induction false} OneMemberMoves(a: set<HandlerId>, b: set<HandlerId>, h: HandlerId)
    requires b - {h} == a - {h}
    ensures |b| == |a| + (if h in b then 1 else 0) - (if h in a then 1 else 0)
  {
    assert a == if h in a then (a - {h}) + {h} else a - {h};
    assert b == if h in b then (b - {h}) + {h} else b - {h};
  }

  lemma {:induction false} OnlyHandlerMoves(s: State, h: HandlerId, move: HandlerMove, s': State, cfg: Config,
                                            id: InsightId)
    requires h in s.handlers && MoveFacts(s, h, move, s', cfg)
    ensures Builders(s', id) - {h} == Builders(s, id) - {h}
    ensures h in Builders(s, id) <==> s.handlers[h].phase == Building && s.handlers[h].msg.insight == id
    ensures h in Builders(s', id) <==>
              h in s'.handlers && s'.handlers[h].phase == Building && s.handlers[h].msg.insight == id
  {
  }

  lemma {:induction false} MoveKeepsCounted(s: State, h: HandlerId, move: HandlerMove, cfg: Config, id: InsightId)
    requires h in s.handlers && CanMove(s.handlers[h].phase, move)
    requires id in s.insights && Counted(s, id, cfg)
    ensures id in Moved(s, h, move, cfg).insights && Counted(Moved(s, h, move, cfg), id, cfg)
  {
    StepMovesLegally(s, Handle(h, move), cfg);
    MovesHaveFacts(s, h, move, cfg);
    BuildersMove(s, h, move, Moved(s, h, move, cfg), cfg, id);
    CountsMove(s, h, move, cfg, id);
    CountedFrom(s, Moved(s, h, move, cfg), h, move, cfg, id);
  }

  /** The arithmetic of one move: the counters and the row move together. */
  lemma {:induction false} CountedFrom(s: State, s': State, h: HandlerId, move: HandlerMove, cfg: Config, id: InsightId)
    requires h in s.handlers && id in s.insights && id in s'.insights && Counted(s, id, cfg)
    requires LegalMove(s.insights[id], s'.insights[id], cfg.reaperMaxRetries)
    requires MovesCount(s, s', h, move, id)
    requires s'.insights[id].status == Queued ==> s.insights[id].status == Queued
    requires var was := s.handlers[h].phase == Building && s.handlers[h].msg.insight == id;
             var will := h in s'.handlers && s'.handlers[h].phase == Building && s.handlers[h].msg.insight == id;
             |Builders(s', id)| == |Builders(s, id)| + (if will then 1 else 0) - (if was then 1 else 0)
    ensures Counted(s', id, cfg)
  {
  }

  predicate MovesCount(s: State, s': State, h: HandlerId, move: HandlerMove, id: InsightId)
    requires h in s.handlers && id in s.insights && id in s'.insights
  {
    var hd := s.handlers[h];
    var mine := hd.msg.insight == id;
    var claimed := mine && h in s'.handlers && s'.handlers[h].phase == Building;
    var called := mine && (move.Generate? || move.GenerateRaises?);
    && Count(s'.claims, id) == Count(s.claims, id) + (if claimed then 1 else 0)
    && Count(s'.aiCalls, id) == Count(s.aiCalls, id) + (if called then 1 else 0)
    && (claimed <==> s.insights[id].status == Queued && s'.insights[id].status == Processing)
    && (called ==> hd.phase == Building)
    && (claimed ==> hd.phase == Received)
  }

  lemma {:induction false} ClaimCounts(s: State, h: HandlerId, move: HandlerMove, cfg: Config, id: InsightId)
    requires h in s.handlers && CanMove(s.handlers[h].phase, move) && move.ClaimInsight?
    requires id in s.insights && id in Moved(s, h, move, cfg).insights
    ensures MovesCount(s, Moved(s, h, move, cfg), h, move, id)
  {
  }

  lemma {:induction false} OtherMoveCounts(s: State, h: HandlerId, move: HandlerMove, cfg: Config, id: InsightId)
    requires h in s.handlers && CanMove(s.handlers[h].phase, move) && !move.ClaimInsight?
    requires id in s.insights && id in Moved(s, h, move, cfg).insights
    ensures MovesCount(s, Moved(s, h, move, cfg), h, move, id)
  {
  }

  lemma {:induction false} CountsMove(s: State, h: HandlerId, move: HandlerMove, cfg: Config, id: InsightId)
    requires h in s.handlers && CanMove(s.handlers[h].phase, move)
    requires id in s.insights && id in Moved(s, h, move, cfg).insights
    ensures MovesCount(s, Moved(s, h, move, cfg), h, move, id)
  {
    if move.ClaimInsight? {
      ClaimCounts(s, h, move, cfg, id);
    } else {
      OtherMoveCounts(s, h, move, cfg, id);
    }
  }

  lemma {:induction false} RequestStartsCounted(s: State, id: InsightId, user: UserId, event: EventId, cfg: Config)
    requires Shape(s) && id !in s.insights
    ensures Counted(Requested(s, id, user, event), id, cfg)
  {
    forall h | h in s.handlers ensures s.handlers[h].msg.insight != id {
      assert HandlerOk(s, h) && MessageOk(s, s.handlers[h].offset) && EventOk(s, s.handlers[h].msg.event);
    }
    assert Builders(Requested(s, id, user, event), id) == {};
  }

  lemma {:induction false} OtherStepCounts(s: State, step: Step, cfg: Config, id: InsightId)
    requires Enabled(s, step, cfg) && !step.Handle? && id in s.insights
    ensures var s' := Apply(s, step, cfg);
            && Count(s'.claims, id) == Count(s.claims, id) && Count(s'.aiCalls, id) == Count(s.aiCalls, id)
            && (forall h :: h in s.handlers ==> h in s'.handlers && s'.handlers[h] == s.handlers[h])
            && (forall h :: h in s'.handlers && h !in s.handlers ==> s'.handlers[h].phase == Received)
  {
    match step
    case Poll(p, e, poll) => PollFacts(s, p, e, poll, cfg);
    case _ =>
  }

  lemma {:induction false} SameBuilders(s: State, s': State, id: InsightId)
    requires forall h :: h in s.handlers ==> h in s'.handlers && s'.handlers[h] == s.handlers[h]
    requires forall h :: h in s'.handlers && h !in s.handlers ==> s'.handlers[h].phase == Received
    ensures Builders(s', id) == Builders(s, id)
  {
  }

  lemma {:induction false} OtherStepRow(s: State, step: Step, cfg: Config, id: InsightId)
    requires Enabled(s, step, cfg) && !step.Handle? && id in s.insights
    ensures var s' := Apply(s, step, cfg);
            && id in s'.insights
            && (s'.insights[id] == s.insights[id]
                || s'.insights[id] == ReapRow(s.insights[id], cfg.reaperMaxRetries, s.now))
  {
    match step
    case Poll(p, e, poll) => PollFacts(s, p, e, poll, cfg);
    case _ =>
  }

  lemma {:induction false} OtherStepKeepsCounted(s: State, step: Step, cfg: Config, id: InsightId)
    requires Enabled(s, step, cfg) && !step.Handle?
    requires id in s.insights && Counted(s, id, cfg)
    ensures id in Apply(s, step, cfg).insights && Counted(Apply(s, step, cfg), id, cfg)
  {
    OtherStepCounts(s, step, cfg, id);
    OtherStepRow(s, step, cfg, id);
    CountedAcross(s, Apply(s, step, cfg), cfg, id);
  }

  lemma {:induction false} CountedAcross(s: State, s': State, cfg: Config, id: InsightId)
    requires id in s.insights && id in s'.insights && Counted(s, id, cfg)
    requires Count(s'.claims, id) == Count(s.claims, id) && Count(s'.aiCalls, id) == Count(s.aiCalls, id)
    requires forall h :: h in s.handlers ==> h in s'.handlers && s'.handlers[h] == s.handlers[h]
    requires forall h :: h in s'.handlers && h !in s.handlers ==> s'.handlers[h].phase == Received
    requires || s'.insights[id] == s.insights[id]
             || s'.insights[id] == ReapRow(s.insights[id], cfg.reaperMaxRetries, s.now)
    ensures Counted(s', id, cfg)
  {
    SameBuilders(s, s', id);
  }

  lemma {:induction false} StepKeepsCounted(s: State, step: Step, cfg: Config, id: InsightId)
    requires Shape(s) && AllCounted(s, cfg) && Enabled(s, step, cfg)
    requires id in Apply(s, step, cfg).insights
    ensures Counted(Apply(s, step, cfg), id, cfg)
  {
    if id !in s.insights {
      assert step.Request? by {
        match step
        case Poll(p, e, poll) => PollFacts(s, p, e, poll, cfg);
        case Handle(h, move) => MovesHaveFacts(s, h, move, cfg);
        case _ =>
      }
      RequestStartsCounted(s, id, step.user, step.event, cfg);
    } else if step.Handle? {
      MoveKeepsCounted(s, step.h, step.move, cfg, id);
    } else {
      OtherStepKeepsCounted(s, step, cfg, id);
    }
  }

  // ---------- the whole invariant ----------

  lemma {:induction false} InitInv(cfg: Config)
    ensures Inv(Init(), cfg)
  {
  }

  /** Every step of every process keeps the whole invariant. */
  lemma {:induction false} StepKeepsInv(s: State, step: Step, cfg: Config)
    requires Inv(s, cfg) && Enabled(s, step, cfg)
    ensures Inv(Apply(s, step, cfg), cfg)
  {
    var s' := Apply(s, step, cfg);
    StepKeepsShape(s, step, cfg);
    StepKeepsAccounted(s, step, cfg);
    forall e | Waiting(s', e) ensures Traceable(s', e) {
      StepKeepsTraceable(s, step, cfg, e);
    }
    forall e | e in s'.outbox && s'.outbox[e].status == SENT
      ensures exists o :: 0 <= o < |s'.log| && s'.log[o].event == e
    {
      StepKeepsSentWasPublished(s, step, cfg, e);
    }
    forall id | id in s'.insights ensures Counted(s', id, cfg) {
      StepKeepsCounted(s, step, cfg, id);
    }
  }
}
