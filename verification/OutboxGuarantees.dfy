/** What the outbox guarantees: how a row leaves PENDING, when SENT can be lost,
    and what a single poller whose failure records succeed adds. */
module OutboxGuarantees {
  import opened Wrappers
  import opened InsightRows
  import opened Outbox
  import opened Delivery
  import opened DeliveryInvariant
  import opened DeliveryTheorems

  predicate HasStatus(s: State, e: EventId, st: OutboxStatus) {
    e in s.outbox && s.outbox[e].status == st
  }

  /** A poll step that fails, and its record, nobody else acting in between. */
  function FailedAttempt(s: State, p: PollerId, e: EventId, poll: PollStep, cfg: Config): State
    requires poll.Rollback? || poll.FailUnlocked?
    requires CanPoll(s, p, e, poll, cfg)
  {
    var s1 := Polled(s, p, e, poll, cfg);
    assert p in s1.owing && s1.owing[p] == e;
    Polled(s1, p, e, RecordPublishFailure, cfg)
  }

  /** The protocol steps of one attempt of poller p on the row of e. */
  function Attempted(s: State, p: PollerId, e: EventId, a: Attempt, cfg: Config): State
    requires p !in s.owing && e in s.outbox && (PendingRow(s, e) || a == Unlocked)
  {
    var known := s.outbox[e].msg.eventType in cfg.topics;
    match a
    case Committed => Polled(s, p, e, if known then Send else NoTopic, cfg)
    case RolledBack(delivered) => FailedAttempt(s, p, e, Rollback(delivered && known), cfg)
    case Unlocked => FailedAttempt(s, p, e, FailUnlocked, cfg)
    case Skipped => s
  }

  /** The poller's own `_process_one` is these steps: same row, same topic, nothing owed. */
  lemma {:induction false} ProcessOneIsPollSteps(s: State, p: PollerId, e: EventId, a: Attempt, cfg: Config)
    requires p !in s.owing && e in s.outbox && (PendingRow(s, e) || a == Unlocked)
    ensures var s' := Attempted(s, p, e, a, cfg);
            && s'.outbox == s.outbox[e := RelayRow(s.outbox[e], a, cfg.topics, cfg.outboxMaxRetries, s.now)]
            && s'.log == s.log + Relayed(s.outbox[e], a, cfg.topics)
            && s'.owing == s.owing
            && s'.insights == s.insights && s'.handlers == s.handlers && s'.processed == s.processed
  {
    assert s.log + [] == s.log;
    assert (s.owing[p := e]) - {p} == s.owing;
  }

  /** The outbox after a poll step, in plain fields. */
  lemma {:induction false} PollMeans(s: State, p: PollerId, e: EventId, poll: PollStep, cfg: Config)
    requires CanPoll(s, p, e, poll, cfg)
    ensures Polled(s, p, e, poll, cfg).outbox.Keys == s.outbox.Keys
    ensures forall x :: x in s.outbox && x != e ==> Polled(s, p, e, poll, cfg).outbox[x] == s.outbox[x]
    ensures e in s.outbox ==>
              var r, r' := s.outbox[e], Polled(s, p, e, poll, cfg).outbox[e];
              match poll
              case Send => r.status == PENDING && r' == OutboxRow(r.msg, SENT, r.retryCount, r.failedAt)
              case NoTopic => r.status == PENDING && r' == OutboxRow(r.msg, FAILED, r.retryCount, Some(s.now))
              case RecordPublishFailure =>
                r' == if r.retryCount + 1 >= cfg.outboxMaxRetries
                      then OutboxRow(r.msg, FAILED, r.retryCount + 1, Some(s.now))
                      else OutboxRow(r.msg, r.status, r.retryCount + 1, r.failedAt)
              case _ => r' == r
    ensures Polled(s, p, e, poll, cfg).log
            == s.log + if poll == Send || poll == Rollback(true) then [s.outbox[e].msg] else []
  {
  }

  /** A replay of quarantined rows, as the admin operation writes it, is a step of the protocol. */
  lemma {:induction false} ReplayIsStep(s: State, cfg: Config, targets: seq<EventId>, after: OutboxTable)
    requires forall e :: e in targets ==> e in s.outbox && s.outbox[e].status == FAILED
    requires after.Keys == s.outbox.Keys
    requires forall e :: e in after ==>
               after[e] == if e in targets then OutboxRow(s.outbox[e].msg, PENDING, 0, None) else s.outbox[e]
    ensures Enabled(s, Replay(set e | e in targets), cfg)
    ensures Apply(s, Replay(set e | e in targets), cfg).outbox == after
    ensures var s' := Apply(s, Replay(set e | e in targets), cfg);
            s'.log == s.log && s'.insights == s.insights && s'.handlers == s.handlers && s'.owing == s.owing
  {
  }

  /** A PENDING row is never dropped; it leaves PENDING only into SENT, with its message
      put on the topic by that very step, or into FAILED, for want of a topic or of retries. */
  lemma {:induction false} PendingExits(s: State, step: Step, cfg: Config, e: EventId)
    requires Shape(s) && Enabled(s, step, cfg) && PendingRow(s, e)
    ensures var s' := Apply(s, step, cfg);
            && e in s'.outbox && s'.outbox[e].msg == s.outbox[e].msg
            && (HasStatus(s', e, SENT) ==>
                  step.Poll? && step.poll == Send && s'.log == s.log + [s.outbox[e].msg])
            && (HasStatus(s', e, FAILED) ==>
                  && step.Poll? && step.e == e
                  && (|| (step.poll == NoTopic && s.outbox[e].msg.eventType !in cfg.topics)
                      || (step.poll == RecordPublishFailure && s.outbox[e].retryCount + 1 >= cfg.outboxMaxRetries)))
  {
    assert RowOk(s, e);
    match step
    case Poll(p, e', poll) => PollFacts(s, p, e', poll, cfg);
    case Handle(h, move) => MovesHaveFacts(s, h, move, cfg);
    case ReaperTick(emitted) => ReapedAt(s, emitted, cfg, e);
    case _ =>
  }

  /** A SENT row changes status in exactly one way: a poller that still owes a failure
      record for it writes that record, and the record uses up the retries. */
  lemma {:induction false} SentIsLostIff(s: State, step: Step, cfg: Config, e: EventId)
    requires Shape(s) && Enabled(s, step, cfg) && HasStatus(s, e, SENT)
    ensures (e in Apply(s, step, cfg).outbox && !HasStatus(Apply(s, step, cfg), e, SENT))
            <==> (step.Poll? && step.e == e && step.poll == RecordPublishFailure
                  && s.outbox[e].retryCount + 1 >= cfg.outboxMaxRetries)
  {
    assert RowOk(s, e);
    match step
    case Poll(p, e', poll) => PollFacts(s, p, e', poll, cfg);
    case Handle(h, move) => MovesHaveFacts(s, h, move, cfg);
    case ReaperTick(emitted) => ReapedAt(s, emitted, cfg, e);
    case _ =>
  }

  /** With two pollers this does happen: the first fails to publish, the second sends
      the row, and the first one's late record turns SENT into FAILED. */
  lemma {:induction false} TwoPollersCanLoseSent(s: State, cfg: Config, p: PollerId, q: PollerId, e: EventId)
    requires p != q && p !in s.owing && q !in s.owing
    requires PendingRow(s, e) && s.outbox[e].msg.eventType in cfg.topics
    requires s.outbox[e].retryCount + 1 >= cfg.outboxMaxRetries
    ensures Enabled(s, Poll(p, e, Rollback(false)), cfg)
    ensures var s1 := Apply(s, Poll(p, e, Rollback(false)), cfg);
            && Enabled(s1, Poll(q, e, Send), cfg)
            && var s2 := Apply(s1, Poll(q, e, Send), cfg);
            && HasStatus(s2, e, SENT)
            && Enabled(s2, Poll(p, e, RecordPublishFailure), cfg)
            && HasStatus(Apply(s2, Poll(p, e, RecordPublishFailure), cfg), e, FAILED)
  {
  }

  /** One poller is enough if a commit is applied and then reported as failed: the attempt
      raises after its row was SENT, and its own failure record turns the row FAILED. */
  lemma {:induction false} LostCommitCanLoseSent(s: State, cfg: Config, p: PollerId, e: EventId)
    requires p !in s.owing && PendingRow(s, e) && s.outbox[e].msg.eventType in cfg.topics
    ensures Enabled(s, Poll(p, e, Send), cfg)
    ensures var s1 := Apply(s, Poll(p, e, Send), cfg);
            && HasStatus(s1, e, SENT)
            && Enabled(s1, Poll(p, e, FailUnlocked), cfg)
            && var s2 := Apply(s1, Poll(p, e, FailUnlocked), cfg);
               && Enabled(s2, Poll(p, e, RecordPublishFailure), cfg)
               && var s3 := Apply(s2, Poll(p, e, RecordPublishFailure), cfg);
                  && HasStatus(s3, e, if s.outbox[e].retryCount + 1 >= cfg.outboxMaxRetries then FAILED else SENT)
  {
  }

  /** And without the failure record there is no bound: a poller that publishes, rolls
      back and dies leaves the row exactly as it was, one publication later. */
  lemma {:induction false} LostRecordsRepublish(s: State, cfg: Config, p: PollerId, e: EventId)
    requires p !in s.owing && PendingRow(s, e) && s.outbox[e].msg.eventType in cfg.topics && e in s.sinceReplay
    ensures Enabled(s, Poll(p, e, Rollback(true)), cfg)
    ensures var s1 := Apply(s, Poll(p, e, Rollback(true)), cfg);
            && Enabled(s1, Poll(p, e, LosePublishFailure), cfg)
            && var s2 := Apply(s1, Poll(p, e, LosePublishFailure), cfg);
            && s2.outbox == s.outbox && s2.owing == s.owing
            && s2.log == s.log + [s.outbox[e].msg] && s2.sinceReplay[e] == s.sinceReplay[e] + 1
  {
    assert (s.owing[p := e]) - {p} == s.owing;
  }

  // ---------- the publication counter counts the topic ----------

  function Occurrences(log: seq<Message>, e: EventId): nat {
    if log == [] then 0 else Occurrences(log[..|log| - 1], e) + if log[|log| - 1].event == e then 1 else 0
  }

  /** `sinceReplay` moves exactly with the topic, and only a replay of the row resets it. */
  lemma {:induction false} SinceReplayCountsTopic(s: State, step: Step, cfg: Config, e: EventId)
    requires Shape(s) && Enabled(s, step, cfg) && e in s.events && e in s.sinceReplay
    ensures e in Apply(s, step, cfg).sinceReplay
    ensures Apply(s, step, cfg).sinceReplay[e] ==
            if step.Replay? && e in step.es then 0
            else s.sinceReplay[e] + Occurrences(Apply(s, step, cfg).log, e) - Occurrences(s.log, e)
  {
    var s' := Apply(s, step, cfg);
    match step
    case Poll(p, e', poll) =>
      assert RowOk(s, e');
      if Publishes(poll) {
        assert s'.log[..|s'.log| - 1] == s.log;
      }
    case Handle(h, move) => MovesHaveFacts(s, h, move, cfg);
    case ReaperTick(emitted) => ReapedAt(s, emitted, cfg, e);
    case _ =>
  }

  // ---------- SENT over a run ----------

  /** The step is a failure record that turns a SENT row of e into FAILED. */
  predicate LosesSent(s: State, step: Step, e: EventId, cfg: Config) {
    && HasStatus(s, e, SENT) && step.Poll? && step.e == e && step.poll == RecordPublishFailure
    && s.outbox[e].retryCount + 1 >= cfg.outboxMaxRetries
  }

  /** SENT as long as the row is kept. */
  predicate StaysSent(s: State, e: EventId) {
    e in s.events && (e in s.outbox ==> s.outbox[e].status == SENT)
  }

  ghost predicate IsLost(states: seq<State>, steps: seq<Step>, cfg: Config, j: nat, k: nat, e: EventId)
    requires k <= |steps| && k <= |states|
  {
    exists i :: j <= i < k && LosesSent(states[i], steps[i], e, cfg)
  }

  lemma {:induction false} SentStep(s: State, step: Step, cfg: Config, e: EventId)
    requires Shape(s) && Enabled(s, step, cfg) && StaysSent(s, e)
    ensures StaysSent(Apply(s, step, cfg), e) <==> !LosesSent(s, step, e, cfg)
  {
    assert RowOk(s, e);
    match step
    case Poll(p, e', poll) => PollFacts(s, p, e', poll, cfg);
    case Handle(h, move) => MovesHaveFacts(s, h, move, cfg);
    case ReaperTick(emitted) => ReapedAt(s, emitted, cfg, e);
    case _ =>
  }

  /** Over any run of any pollers, a row that was SENT stays SENT until it is purged exactly
      if no failure record that uses up the retries is written to it. */
  lemma {:induction false} SentIsFinalIff(states: seq<State>, steps: seq<Step>, cfg: Config, j: nat, k: nat, e: EventId)
    requires IsRun(states, steps, cfg) && j <= k < |states| && HasStatus(states[j], e, SENT)
    ensures (forall i :: j <= i <= k ==> StaysSent(states[i], e)) <==> !IsLost(states, steps, cfg, j, k, e)
  {
    if j == k {
      RunKeepsInv(states, steps, cfg, k);
      assert RowOk(states[k], e);
    } else {
      SentIsFinalIff(states, steps, cfg, j, k - 1, e);
      RunKeepsInv(states, steps, cfg, k - 1);
      assert Linked(states, steps, cfg, k - 1);
      if StaysSent(states[k - 1], e) {
        SentStep(states[k - 1], steps[k - 1], cfg, e);
      }
      assert IsLost(states, steps, cfg, j, k, e)
        <==> IsLost(states, steps, cfg, j, k - 1, e) || LosesSent(states[k - 1], steps[k - 1], e, cfg);
    }
  }

  // ---------- pollers that record their failures ----------

  /** Only pollers of ps poll, and every failure they have is recorded before they go on. A
      failure may lie before the row's lock, and it may be a commit that was applied and
      reported as failed. */
  predicate Recording(step: Step, ps: set<PollerId>) {
    step.Poll? ==> step.p in ps && !step.poll.LosePublishFailure?
  }

  /** The pollers that still owe a failure record for e. */
  function Owers(owing: map<PollerId, EventId>, e: EventId): set<PollerId> {
    set p | p in owing && owing[p] == e
  }

  /** The failures after which a row is quarantined: a configured number below one acts as one. */
  function Cap(cfg: Config): (cap: nat)
    ensures cap >= 1
  {
    if cfg.outboxMaxRetries >= 1 then cfg.outboxMaxRetries else 1
  }

  predicate PublishedRow(s: State, e: EventId, ps: set<PollerId>, cfg: Config) {
    && (e in s.outbox ==> e in s.sinceReplay)
    && (e in s.sinceReplay ==> e in s.events && s.sinceReplay[e] <= Cap(cfg) + |ps| - 1)
    && (PendingRow(s, e) ==>
          && s.outbox[e].retryCount < Cap(cfg)
          && s.sinceReplay[e] <= s.outbox[e].retryCount + |Owers(s.owing, e)|)
  }

  ghost predicate PublishedInv(s: State, ps: set<PollerId>, cfg: Config) {
    && s.owing.Keys <= ps
    && forall e {:trigger PublishedRow(s, e, ps, cfg)} :: PublishedRow(s, e, ps, cfg)
  }

  lemma {:induction false} SubsetCount(a: set<PollerId>, b: set<PollerId>)
    requires a <= b
    ensures |a| <= |b|
  {
    assert b == a + (b - a);
  }

  /** A poller that owes nothing leaves room for itself. */
  lemma {:induction false} OwersAreFewer(owing: map<PollerId, EventId>, ps: set<PollerId>, p: PollerId, e: EventId)
    requires owing.Keys <= ps && p in ps && p !in owing
    ensures |Owers(owing, e)| <= |ps| - 1
  {
    SubsetCount(Owers(owing, e), ps - {p});
  }

  lemma {:induction false} OneMoreOwer(owing: map<PollerId, EventId>, p: PollerId, e': EventId, e: EventId)
    requires p !in owing
    ensures |Owers(owing[p := e'], e)| == |Owers(owing, e)| + if e == e' then 1 else 0
  {
    assert Owers(owing[p := e'], e) == if e == e' then Owers(owing, e) + {p} else Owers(owing, e);
  }

  lemma {:induction false} OneOwerLess(owing: map<PollerId, EventId>, p: PollerId, e: EventId)
    requires p in owing
    ensures |Owers(owing - {p}, e)| == |Owers(owing, e)| - if owing[p] == e then 1 else 0
  {
    assert Owers(owing - {p}, e) == if owing[p] == e then Owers(owing, e) - {p} else Owers(owing, e);
  }

  lemma {:induction false} PollKeepsPublished(s: State, p: PollerId, e': EventId, poll: PollStep, ps: set<PollerId>,
      cfg: Config, e: EventId)
    requires PublishedInv(s, ps, cfg) && CanPoll(s, p, e', poll, cfg) && p in ps && !poll.LosePublishFailure?
    ensures PublishedRow(Polled(s, p, e', poll, cfg), e, ps, cfg)
  {
    assert PublishedRow(s, e, ps, cfg);
    match poll
    case RecordPublishFailure => OneOwerLess(s.owing, p, e);
    case LosePublishFailure =>
    case Send => OwersAreFewer(s.owing, ps, p, e);
    case NoTopic =>
    case Rollback(_) =>
      OwersAreFewer(s.owing, ps, p, e);
      OneMoreOwer(s.owing, p, e', e);
    case FailUnlocked => OneMoreOwer(s.owing, p, e', e);
  }

  lemma {:induction false} ReapedCounter(s: State, emitted: map<InsightId, EventId>, cfg: Config, e: EventId)
    requires CanReap(s, emitted, cfg)
    ensures var c, m := Reaped(s, emitted, cfg).sinceReplay, Appended(s.insights, emitted);
            && (e in c <==> e in s.sinceReplay || e in m)
            && (e in c ==> c[e] == if e in m then 0 else s.sinceReplay[e])
  {
  }

  lemma {:induction false} ReapKeepsPublished(s: State, emitted: map<InsightId, EventId>, ps: set<PollerId>,
      cfg: Config, e: EventId)
    requires PublishedRow(s, e, ps, cfg) && RowOk(s, e) && CanReap(s, emitted, cfg) && ps != {}
    ensures PublishedRow(Reaped(s, emitted, cfg), e, ps, cfg)
  {
    ReapedAt(s, emitted, cfg, e);
    ReapedCounter(s, emitted, cfg, e);
    assert Reaped(s, emitted, cfg).owing == s.owing;
  }

  lemma {:induction false} HandleKeepsPublished(s: State, h: HandlerId, move: HandlerMove, ps: set<PollerId>,
      cfg: Config, e: EventId)
    requires PublishedRow(s, e, ps, cfg) && h in s.handlers && CanMove(s.handlers[h].phase, move)
    ensures PublishedRow(Moved(s, h, move, cfg), e, ps, cfg)
  {
  }

  lemma {:induction false} OtherKeepsPublished(s: State, step: Step, ps: set<PollerId>, cfg: Config, e: EventId)
    requires RowOk(s, e) && PublishedRow(s, e, ps, cfg) && Enabled(s, step, cfg) && !step.Poll? && ps != {}
    ensures PublishedRow(Apply(s, step, cfg), e, ps, cfg)
  {
    match step
    case Handle(h, move) => HandleKeepsPublished(s, h, move, ps, cfg, e);
    case ReaperTick(emitted) => ReapKeepsPublished(s, emitted, ps, cfg, e);
    case _ =>
  }

  lemma {:induction false} OnlyPollsOwe(s: State, step: Step, ps: set<PollerId>, cfg: Config)
    requires Enabled(s, step, cfg) && Recording(step, ps) && s.owing.Keys <= ps
    ensures Apply(s, step, cfg).owing.Keys <= ps
  {
    match step
    case Handle(h, move) => MovesHaveFacts(s, h, move, cfg);
    case _ =>
  }

  /** Publications of a PENDING row never exceed the counted failures plus the records
      still owed for it. */
  lemma {:induction false} StepKeepsPublished(s: State, step: Step, ps: set<PollerId>, cfg: Config)
    requires Shape(s) && PublishedInv(s, ps, cfg) && Enabled(s, step, cfg) && Recording(step, ps)
    requires ps != {}
    ensures PublishedInv(Apply(s, step, cfg), ps, cfg)
  {
    forall e ensures PublishedRow(Apply(s, step, cfg), e, ps, cfg) {
      if step.Poll? {
        PollKeepsPublished(s, step.p, step.e, step.poll, ps, cfg, e);
      } else {
        assert PublishedRow(s, e, ps, cfg) && RowOk(s, e);
        OtherKeepsPublished(s, step, ps, cfg, e);
      }
    }
    OnlyPollsOwe(s, step, ps, cfg);
  }

  ghost predicate IsRecordingRun(states: seq<State>, steps: seq<Step>, cfg: Config, ps: set<PollerId>) {
    && IsRun(states, steps, cfg) && ps != {}
    && forall k :: 0 <= k < |steps| ==> Recording(steps[k], ps)
  }

  lemma {:induction false} RunKeepsPublished(states: seq<State>, steps: seq<Step>, cfg: Config, ps: set<PollerId>,
      k: nat)
    requires IsRecordingRun(states, steps, cfg, ps) && k < |states|
    ensures PublishedInv(states[k], ps, cfg)
  {
    if k > 0 {
      RunKeepsPublished(states, steps, cfg, ps, k - 1);
      RunKeepsInv(states, steps, cfg, k - 1);
      assert Linked(states, steps, cfg, k - 1);
      StepKeepsPublished(states[k - 1], steps[k - 1], ps, cfg);
    }
  }

  /** Between replays no row is published more than maxRetries times and once more for
      every further poller; with one poller that is maxRetries. */
  lemma {:induction false} PublishedAtMost(states: seq<State>, steps: seq<Step>, cfg: Config, ps: set<PollerId>,
      k: nat, e: EventId)
    requires IsRecordingRun(states, steps, cfg, ps) && k < |states| && e in states[k].sinceReplay
    ensures states[k].sinceReplay[e] <= Cap(cfg) + |ps| - 1
  {
    RunKeepsPublished(states, steps, cfg, ps, k);
    assert PublishedRow(states[k], e, ps, cfg);
  }

  /** The case of one poller. */
  lemma {:induction false} PublishedAtMostMaxRetries(states: seq<State>, steps: seq<Step>, cfg: Config,
      p: PollerId, k: nat, e: EventId)
    requires IsRecordingRun(states, steps, cfg, {p}) && k < |states| && e in states[k].sinceReplay
    ensures states[k].sinceReplay[e] <= Cap(cfg)
  {
    PublishedAtMost(states, steps, cfg, {p}, k, e);
  }

  // ---------- the bound is attained ----------

  ghost predicate RecordingPath(states: seq<State>, steps: seq<Step>, cfg: Config, ps: set<PollerId>) {
    && |states| == |steps| + 1
    && (forall k {:trigger Linked(states, steps, cfg, k)} :: Linked(states, steps, cfg, k))
    && forall k :: 0 <= k < |steps| ==> Recording(steps[k], ps)
  }

  lemma {:induction false} PathGrows(states: seq<State>, steps: seq<Step>, step: Step, cfg: Config, ps: set<PollerId>)
    requires RecordingPath(states, steps, cfg, ps) && Enabled(states[|steps|], step, cfg) && Recording(step, ps)
    ensures RecordingPath(states + [Apply(states[|steps|], step, cfg)], steps + [step], cfg, ps)
  {
    var states', steps' := states + [Apply(states[|steps|], step, cfg)], steps + [step];
    forall k ensures Linked(states', steps', cfg, k) {
      assert Linked(states, steps, cfg, k);
    }
  }

  /** A PENDING row of e with so many failures and publications, known to the topics. */
  predicate Standing(s: State, e: EventId, failures: nat, published: nat, cfg: Config) {
    && PendingRow(s, e) && s.outbox[e].msg.eventType in cfg.topics && e in s.sinceReplay
    && s.outbox[e].retryCount == failures && s.sinceReplay[e] == published
  }

  /** One poller fails n times after publishing, and records each. */
  lemma {:induction false} FailsAndRecords(cfg: Config, ps: set<PollerId>, p: PollerId, e: EventId, n: nat)
    returns (states: seq<State>, steps: seq<Step>)
    requires p in ps && n < Cap(cfg) && INSIGHT_REQUESTED in cfg.topics
    ensures RecordingPath(states, steps, cfg, ps) && states[0] == Init()
    ensures Standing(states[|steps|], e, n, n, cfg) && states[|steps|].owing == map[]
  {
    if n == 0 {
      states, steps := [Init()], [];
      PathGrows(states, steps, Request(0, 0, e), cfg, ps);
      states, steps := states + [Apply(Init(), Request(0, 0, e), cfg)], steps + [Request(0, 0, e)];
    } else {
      states, steps := FailsAndRecords(cfg, ps, p, e, n - 1);
      states, steps := AlsoPublishes(states, steps, cfg, ps, p, e, n - 1, n - 1);
      var s, step := states[|steps|], Poll(p, e, RecordPublishFailure);
      PathGrows(states, steps, step, cfg, ps);
      states, steps := states + [Apply(s, step, cfg)], steps + [step];
    }
  }

  /** A poller that owes nothing publishes once more and rolls back. */
  lemma {:induction false} AlsoPublishes(states: seq<State>, steps: seq<Step>, cfg: Config, ps: set<PollerId>,
                                         p: PollerId, e: EventId, failures: nat, published: nat)
    returns (states': seq<State>, steps': seq<Step>)
    requires RecordingPath(states, steps, cfg, ps) && p in ps && p !in states[|steps|].owing
    requires Standing(states[|steps|], e, failures, published, cfg)
    ensures RecordingPath(states', steps', cfg, ps) && states'[0] == states[0]
    ensures Standing(states'[|steps'|], e, failures, published + 1, cfg)
    ensures states'[|steps'|].owing == states[|steps|].owing[p := e]
  {
    var s, step := states[|steps|], Poll(p, e, Rollback(true));
    PathGrows(states, steps, step, cfg, ps);
    states', steps' := states + [Apply(s, step, cfg)], steps + [step];
  }

  /** Every poller of qs publishes the row once more before any of them records its failure. */
  lemma {:induction false} AllPublish(cfg: Config, ps: set<PollerId>, p: PollerId, e: EventId, qs: set<PollerId>)
    returns (states: seq<State>, steps: seq<Step>)
    requires p in ps && qs <= ps && INSIGHT_REQUESTED in cfg.topics
    ensures RecordingPath(states, steps, cfg, ps) && states[0] == Init() && states[|steps|].owing.Keys == qs
    ensures Standing(states[|steps|], e, Cap(cfg) - 1, Cap(cfg) - 1 + |qs|, cfg)
    decreases |qs|
  {
    if qs == {} {
      states, steps := FailsAndRecords(cfg, ps, p, e, Cap(cfg) - 1);
    } else {
      var q :| q in qs;
      states, steps := AllPublish(cfg, ps, p, e, qs - {q});
      states, steps := AlsoPublishes(states, steps, cfg, ps, q, e, Cap(cfg) - 1, Cap(cfg) - 1 + |qs - {q}|);
    }
  }

  /** The bound is exact: some run of these pollers publishes a row that often. */
  lemma {:induction false} PublishedAtMostIsAttained(cfg: Config, ps: set<PollerId>, e: EventId)
    returns (states: seq<State>, steps: seq<Step>)
    requires ps != {} && INSIGHT_REQUESTED in cfg.topics
    ensures IsRecordingRun(states, steps, cfg, ps) && e in states[|steps|].sinceReplay
    ensures states[|steps|].sinceReplay[e] == Cap(cfg) + |ps| - 1
  {
    var p :| p in ps;
    states, steps := AllPublish(cfg, ps, p, e, ps);
  }

  // ---------- one poller ----------

  /** The only poller is p, it records its failures, and no commit is reported as failed
      after it was applied. The rows of its snapshot are then still PENDING when it reaches
      them, since nobody else moves a PENDING row: a failure before the lock is a
      `Rollback(false)`. */
  predicate Solo(step: Step, p: PollerId) {
    Recording(step, {p}) && (step.Poll? ==> !step.poll.FailUnlocked?)
  }

  /** A row whose failure record is owed is still PENDING. */
  predicate OwedIsPending(s: State, q: PollerId) {
    q in s.owing ==> PendingRow(s, s.owing[q])
  }

  ghost predicate SoloInv(s: State, p: PollerId) {
    s.owing.Keys <= {p} && OwedIsPending(s, p)
  }

  lemma {:induction false} ReapKeepsOwed(s: State, emitted: map<InsightId, EventId>, cfg: Config, q: PollerId)
    requires Shape(s) && CanReap(s, emitted, cfg) && OwedIsPending(s, q)
    ensures OwedIsPending(Reaped(s, emitted, cfg), q)
  {
    if q in s.owing {
      assert RowOk(s, s.owing[q]);
      ReapedAt(s, emitted, cfg, s.owing[q]);
    }
  }

  lemma {:induction false} PollKeepsOwed(s: State, p: PollerId, e: EventId, poll: PollStep, cfg: Config)
    requires CanPoll(s, p, e, poll, cfg) && OwedIsPending(s, p) && !poll.FailUnlocked?
    ensures OwedIsPending(Polled(s, p, e, poll, cfg), p)
  {
  }

  lemma {:induction false} StepKeepsSoloInv(s: State, step: Step, p: PollerId, cfg: Config)
    requires Shape(s) && SoloInv(s, p) && Enabled(s, step, cfg) && Solo(step, p)
    ensures SoloInv(Apply(s, step, cfg), p)
  {
    OnlyPollsOwe(s, step, {p}, cfg);
    match step
    case Poll(_, e, poll) => PollKeepsOwed(s, p, e, poll, cfg);
    case ReaperTick(emitted) => ReapKeepsOwed(s, emitted, cfg, p);
    case Request(_, _, event) =>
      assert p in s.owing ==> RowOk(s, s.owing[p]);
    case _ =>
  }

  ghost predicate IsSoloRun(states: seq<State>, steps: seq<Step>, cfg: Config, p: PollerId) {
    IsRun(states, steps, cfg) && forall k :: 0 <= k < |steps| ==> Solo(steps[k], p)
  }

  lemma {:induction false} SoloRunKeepsInv(states: seq<State>, steps: seq<Step>, cfg: Config, p: PollerId, k: nat)
    requires IsSoloRun(states, steps, cfg, p) && k < |states|
    ensures SoloInv(states[k], p)
  {
    if k > 0 {
      SoloRunKeepsInv(states, steps, cfg, p, k - 1);
      RunKeepsInv(states, steps, cfg, k - 1);
      assert Linked(states, steps, cfg, k - 1);
      StepKeepsSoloInv(states[k - 1], steps[k - 1], p, cfg);
    }
  }

  /** With one such poller a row that was SENT is SENT for good, until it is purged. */
  lemma {:induction false} SoloSentIsFinal(states: seq<State>, steps: seq<Step>, cfg: Config, p: PollerId,
                                           j: nat, k: nat, e: EventId)
    requires IsSoloRun(states, steps, cfg, p) && j <= k < |states| && HasStatus(states[j], e, SENT)
    ensures e in states[k].events
    ensures e in states[k].outbox ==> states[k].outbox[e].status == SENT
  {
    SentIsFinalIff(states, steps, cfg, j, k, e);
    forall i | j <= i < k ensures !LosesSent(states[i], steps[i], e, cfg) {
      SoloRunKeepsInv(states, steps, cfg, p, i);
      assert Linked(states, steps, cfg, i) && Solo(steps[i], p);
    }
    assert StaysSent(states[k], e);
  }
}
