/** The insight delivery protocol as one state machine: the insight table, the
    outbox, the topic with its acknowledged offsets, the consumer's processed
    marks and failure counters, the dead-letter topic, the handlers in flight and
    the pollers that owe a failure record. One step per transaction or visible
    effect; crashes, redeliveries and key expiry may happen at any time. */
module Delivery {
  import opened Wrappers
  import opened InsightRows
  import opened Outbox

  type HandlerId = nat
  type PollerId = nat

  datatype Config = Config(
    reaperMaxRetries: nat,
    outboxMaxRetries: int,
    consumerMaxRetries: int,
    topics: set<string>)

  /** Where one handler of one delivered message stands. */
  datatype Phase =
    | Received                                  // not a duplicate, about to claim
    | Building                                  // claimed; context, then the AI call
    | Generated(content: Content)               // the AI answered
    | RecordingFailure(error: string, raises: bool)
    | Finishing                                 // handled, about to mark processed
    | Raising                                   // the handler's body raised
    | Parking                                   // failures used up, about to publish to the DLQ
    | Parked                                    // in the DLQ, about to mark processed
    | Acking                                    // about to acknowledge

  datatype Handler = Handler(offset: nat, msg: Message, phase: Phase)

  datatype State = State(
    now: int,
    insights: Table,
    outbox: OutboxTable,
    log: seq<Message>,
    acked: set<nat>,
    processed: set<EventId>,
    failures: map<EventId, nat>,
    dlq: set<EventId>,
    handlers: map<HandlerId, Handler>,
    owing: map<PollerId, EventId>,
    // what no store holds but the statements are about:
    events: map<EventId, Message>,              // every event ever appended
    latest: map<InsightId, EventId>,            // the event of the latest queueing transaction
    claims: map<InsightId, nat>,                // successful claims
    aiCalls: map<InsightId, nat>,               // calls of the AI port
    sinceReplay: map<EventId, nat>)             // publications since the row was last made PENDING

  datatype Step =
    | Request(id: InsightId, user: UserId, event: EventId)
    | ReaperTick(emitted: map<InsightId, EventId>)
    | Poll(p: PollerId, e: EventId, poll: PollStep)
    | PurgeSent(e: EventId)
    | Replay(es: set<EventId>)
    | Deliver(h: HandlerId, offset: nat)
    | SkipDuplicate(offset: nat)
    | Handle(h: HandlerId, move: HandlerMove)
    | ExpireMark(e: EventId)
    | ExpireFailures(e: EventId)
    | Tick(now: int)

  datatype PollStep =
    | Send                                      // published and committed
    | NoTopic
    | Rollback(delivered: bool)                 // publish or commit failed; the failure is still to be recorded
    | FailUnlocked                              // raised before the row's lock or after an applied commit
    | RecordPublishFailure
    | LosePublishFailure                        // crash, or the record itself failed

  datatype HandlerMove =
    | ClaimInsight(deadline: int)
    | ClaimRaises
    | NoData(error: string)
    | BuildRaises(error: string)
    | Generate(content: Content)
    | GenerateRaises(error: string)
    | CompleteInsight(error: string)
    | CompleteRaises(error: string)
    | RecordInsightFailure
    | LoseInsightFailure
    | MarkProcessed
    | MarkRaises
    | CountHandlerFailure
    | Park
    | Ack
    | Crash

  function RequestedEvent(event: EventId, id: InsightId, user: UserId): Message {
    Message(event, INSIGHT_REQUESTED, id, user)
  }

  function Init(): State {
    State(0, map[], map[], [], {}, {}, map[], {}, map[], map[], map[], map[], map[], map[], map[])
  }

  // ---------- queueing transactions ----------

  function Requested(s: State, id: InsightId, user: UserId, event: EventId): State {
    var msg := RequestedEvent(event, id, user);
    s.(insights := s.insights[id := Row(user, Queued, None, None, 0, None)],
       outbox := s.outbox[event := NewRow(msg)],
       events := s.events[event := msg],
       latest := s.latest[id := event],
       claims := s.claims[id := 0],
       aiCalls := s.aiCalls[id := 0],
       sinceReplay := s.sinceReplay[event := 0])
  }

  ghost predicate CanReap(s: State, emitted: map<InsightId, EventId>, cfg: Config) {
    && emitted.Keys == Requeued(s.insights, cfg.reaperMaxRetries, s.now)
    && (forall id :: id in emitted ==> emitted[id] !in s.events)
    && Injective(emitted)
  }

  predicate Injective(m: map<InsightId, EventId>) {
    forall id, id' :: id in m && id' in m && id != id' ==> m[id] != m[id']
  }

  /** The insight an emitted event is for. */
  ghost function Source(emitted: map<InsightId, EventId>, e: EventId): (id: InsightId)
    requires e in emitted.Values && Injective(emitted)
    ensures id in emitted && emitted[id] == e && forall other :: other in emitted && emitted[other] == e ==> other == id
  {
    var id :| id in emitted && emitted[id] == e;
    id
  }

  ghost function Appended(t: Table, emitted: map<InsightId, EventId>): map<EventId, Message>
    requires emitted.Keys <= t.Keys && Injective(emitted)
  {
    map e | e in emitted.Values :: RequestedEvent(e, Source(emitted, e), t[Source(emitted, e)].user)
  }

  function NewRows(appended: map<EventId, Message>): OutboxTable {
    map e | e in appended :: NewRow(appended[e])
  }

  function Zeros(appended: map<EventId, Message>): map<EventId, nat> {
    map e | e in appended :: 0
  }

  /** The rows a tick requeued re-enter the outbox under fresh events. */
  ghost function Reaped(s: State, emitted: map<InsightId, EventId>, cfg: Config): State
    requires emitted.Keys <= s.insights.Keys && Injective(emitted)
  {
    var appended := Appended(s.insights, emitted);
    s.(insights := Reap(s.insights, cfg.reaperMaxRetries, s.now),
       outbox := s.outbox + NewRows(appended),
       events := s.events + appended,
       latest := s.latest + emitted,
       sinceReplay := s.sinceReplay + Zeros(appended))
  }

  // ---------- outbox steps ----------

  predicate PendingRow(s: State, e: EventId) {
    e in s.outbox && s.outbox[e].status == PENDING
  }

  predicate CanPoll(s: State, p: PollerId, e: EventId, poll: PollStep, cfg: Config) {
    match poll
    case Send => p !in s.owing && PendingRow(s, e) && s.outbox[e].msg.eventType in cfg.topics
    case NoTopic => p !in s.owing && PendingRow(s, e) && s.outbox[e].msg.eventType !in cfg.topics
    case Rollback(delivered) =>
      p !in s.owing && PendingRow(s, e) && (delivered ==> s.outbox[e].msg.eventType in cfg.topics)
    case FailUnlocked => p !in s.owing && e in s.outbox
    case RecordPublishFailure => p in s.owing && s.owing[p] == e
    case LosePublishFailure => p in s.owing && s.owing[p] == e
  }

  function Bump<K>(m: map<K, nat>, k: K): map<K, nat> {
    m[k := if k in m then m[k] + 1 else 1]
  }

  /** Whether the step puts the row's message on the topic. */
  predicate Publishes(poll: PollStep) {
    poll == Send || poll == Rollback(true)
  }

  function OutboxAfter(t: OutboxTable, e: EventId, poll: PollStep, maxRetries: int, now: int): OutboxTable {
    if e !in t then t
    else match poll
      case Send => t[e := t[e].(status := SENT)]
      case NoTopic => t[e := Quarantine(t[e], now)]
      case Rollback(_) => t
      case FailUnlocked => t
      case RecordPublishFailure => t[e := CountFailure(t[e], maxRetries, now)]
      case LosePublishFailure => t
  }

  function Polled(s: State, p: PollerId, e: EventId, poll: PollStep, cfg: Config): State
    requires CanPoll(s, p, e, poll, cfg)
  {
    s.(outbox := OutboxAfter(s.outbox, e, poll, cfg.outboxMaxRetries, s.now),
       log := if Publishes(poll) then s.log + [s.outbox[e].msg] else s.log,
       owing := if poll.Rollback? || poll.FailUnlocked? then s.owing[p := e]
                else if poll.RecordPublishFailure? || poll.LosePublishFailure? then s.owing - {p}
                else s.owing,
       sinceReplay := if Publishes(poll) then Bump(s.sinceReplay, e) else s.sinceReplay)
  }

  function Replayed(s: State, es: set<EventId>): State {
    s.(outbox := map e | e in s.outbox :: if e in es then ReplayRow(s.outbox[e]) else s.outbox[e],
       sinceReplay := map e | e in s.sinceReplay :: if e in es then 0 else s.sinceReplay[e])
  }

  // ---------- handler steps ----------

  predicate CanMove(ph: Phase, move: HandlerMove) {
    match move
    case ClaimInsight(_) => ph.Received?
    case ClaimRaises => ph.Received?
    case NoData(_) => ph.Building?
    case BuildRaises(_) => ph.Building?
    case Generate(_) => ph.Building?
    case GenerateRaises(_) => ph.Building?
    case CompleteInsight(_) => ph.Generated?
    case CompleteRaises(_) => ph.Generated?
    case RecordInsightFailure => ph.RecordingFailure?
    case LoseInsightFailure => ph.RecordingFailure?
    case MarkProcessed => ph.Finishing? || ph.Parked?
    case MarkRaises => ph.Finishing?
    case CountHandlerFailure => ph.Raising?
    case Park => ph.Parking?
    case Ack => ph.Acking?
    case Crash => true
  }

  function AfterFailure(raises: bool): Phase {
    if raises then Raising else Finishing
  }

  /** The insight table after a handler's move. */
  function TableAfter(t: Table, hd: Handler, move: HandlerMove): Table
    requires CanMove(hd.phase, move)
  {
    match move
    case ClaimInsight(deadline) =>
      var r := Claim(t, hd.msg.insight, hd.msg.user, deadline);
      if r.Ok? then r.value else t
    case CompleteInsight(_) =>
      var r := Complete(t, hd.msg.insight, hd.msg.user, hd.phase.content);
      if r.Some? then r.value else t
    case RecordInsightFailure => RecordFailure(t, hd.msg.insight, hd.msg.user, hd.phase.error)
    case _ => t
  }

  /** Where the handler stands after its move; None when it is gone. */
  function PhaseAfter(s: State, hd: Handler, move: HandlerMove, cfg: Config): Option<Phase>
    requires CanMove(hd.phase, move)
  {
    match move
    case ClaimInsight(deadline) =>
      Some(if Claim(s.insights, hd.msg.insight, hd.msg.user, deadline).Ok? then Building else Finishing)
    case ClaimRaises => Some(Raising)
    case NoData(error) => Some(RecordingFailure(error, false))
    case BuildRaises(error) => Some(RecordingFailure(error, true))
    case Generate(content) => Some(Generated(content))
    case GenerateRaises(error) => Some(RecordingFailure(error, true))
    case CompleteInsight(error) =>
      Some(if Complete(s.insights, hd.msg.insight, hd.msg.user, hd.phase.content).Some? then Finishing
           else RecordingFailure(error, true))
    case CompleteRaises(error) => Some(RecordingFailure(error, true))
    case RecordInsightFailure => Some(AfterFailure(hd.phase.raises))
    case LoseInsightFailure => Some(AfterFailure(hd.phase.raises))
    case MarkProcessed => Some(Acking)
    case MarkRaises => Some(Raising)
    case CountHandlerFailure =>
      if Bump(s.failures, hd.msg.event)[hd.msg.event] >= cfg.consumerMaxRetries then Some(Parking) else None
    case Park => Some(Parked)
    case Ack => None
    case Crash => None
  }

  function Moved(s: State, h: HandlerId, move: HandlerMove, cfg: Config): State
    requires h in s.handlers && CanMove(s.handlers[h].phase, move)
  {
    var hd := s.handlers[h];
    var e := hd.msg.event;
    var next := PhaseAfter(s, hd, move, cfg);
    s.(handlers := if next.Some? then s.handlers[h := hd.(phase := next.value)] else s.handlers - {h},
       insights := TableAfter(s.insights, hd, move),
       acked := if move.Ack? then s.acked + {hd.offset} else s.acked,
       processed := if move.MarkProcessed? then s.processed + {e} else s.processed,
       failures := if move.CountHandlerFailure? then Bump(s.failures, e) else s.failures,
       dlq := if move.Park? then s.dlq + {e} else s.dlq,
       claims := if move.ClaimInsight? && next == Some(Building) then Bump(s.claims, hd.msg.insight) else s.claims,
       aiCalls := if move.Generate? || move.GenerateRaises? then Bump(s.aiCalls, hd.msg.insight) else s.aiCalls)
  }

  // ---------- the step relation ----------

  ghost predicate Enabled(s: State, step: Step, cfg: Config) {
    match step
    case Request(id, _, event) => id !in s.insights && event !in s.events
    case ReaperTick(emitted) => CanReap(s, emitted, cfg)
    case Poll(p, e, poll) => CanPoll(s, p, e, poll, cfg)
    case PurgeSent(e) => e in s.outbox && s.outbox[e].status == SENT
    case Replay(es) => forall e :: e in es ==> e in s.outbox && s.outbox[e].status == FAILED
    case Deliver(h, o) => h !in s.handlers && o < |s.log| && o !in s.acked && s.log[o].event !in s.processed
    case SkipDuplicate(o) => o < |s.log| && o !in s.acked && s.log[o].event in s.processed
    case Handle(h, move) => h in s.handlers && CanMove(s.handlers[h].phase, move)
    case ExpireMark(_) => true
    case ExpireFailures(_) => true
    case Tick(now) => s.now <= now
  }

  ghost function Apply(s: State, step: Step, cfg: Config): State
    requires Enabled(s, step, cfg)
  {
    match step
    case Request(id, user, event) => Requested(s, id, user, event)
    case ReaperTick(emitted) => Reaped(s, emitted, cfg)
    case Poll(p, e, poll) => Polled(s, p, e, poll, cfg)
    case PurgeSent(e) => s.(outbox := s.outbox - {e})
    case Replay(es) => Replayed(s, es)
    case Deliver(h, o) => s.(handlers := s.handlers[h := Handler(o, s.log[o], Received)])
    case SkipDuplicate(o) => s.(acked := s.acked + {o})
    case Handle(h, move) => Moved(s, h, move, cfg)
    case ExpireMark(e) => s.(processed := s.processed - {e})
    case ExpireFailures(e) => s.(failures := s.failures - {e})
    case Tick(now) => s.(now := now)
  }

  /** Step k of a run is enabled where it is taken and leads to the next state. */
  ghost predicate Linked(states: seq<State>, steps: seq<Step>, cfg: Config, k: int) {
    0 <= k < |steps| < |states| ==>
      Enabled(states[k], steps[k], cfg) && states[k + 1] == Apply(states[k], steps[k], cfg)
  }

  /** States and the steps between them, from the empty deployment. */
  ghost predicate IsRun(states: seq<State>, steps: seq<Step>, cfg: Config) {
    && |states| == |steps| + 1
    && states[0] == Init()
    && forall k {:trigger Linked(states, steps, cfg, k)} :: Linked(states, steps, cfg, k)
  }
}
