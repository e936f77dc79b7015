/** Paths of the delivery protocol from any state: what one handler does along a path,
    what only grows, and how a waiting event can always still be claimed. */
module DeliveryPaths {
  import opened Wrappers
  import opened InsightRows
  import opened Outbox
  import opened Delivery
  import opened DeliveryInvariant
  import opened DeliveryTheorems

  ghost predicate IsPath(states: seq<State>, steps: seq<Step>, cfg: Config) {
    |states| == |steps| + 1 && forall k {:trigger Linked(states, steps, cfg, k)} :: Linked(states, steps, cfg, k)
  }

  /** The moves of handler h among these steps, in order. */
  function Own(steps: seq<Step>, h: HandlerId): seq<HandlerMove> {
    if steps == [] then []
    else
      var last := steps[|steps| - 1];
      Own(steps[..|steps| - 1], h) + (if last.Handle? && last.h == h then [last.move] else [])
  }

  /** A path leads from a to b on which handler h makes exactly these moves and every other
      process any steps at all. */
  ghost predicate Performs(a: State, b: State, h: HandlerId, moves: seq<HandlerMove>, cfg: Config) {
    exists states, steps ::
      IsPath(states, steps, cfg) && states[0] == a && states[|steps|] == b && Own(steps, h) == moves
  }

  /** Some path leads from a to b. */
  ghost predicate Reaches(a: State, b: State, cfg: Config) {
    exists states, steps :: IsPath(states, steps, cfg) && states[0] == a && states[|steps|] == b
  }

  // ---------- building paths ----------

  lemma {:induction false} OwnAppend(a: seq<Step>, b: seq<Step>, h: HandlerId)
    ensures Own(a + b, h) == Own(a, h) + Own(b, h)
  {
    if b == [] {
      assert a + b == a;
    } else {
      assert (a + b)[..|a + b| - 1] == a + b[..|b| - 1];
      OwnAppend(a, b[..|b| - 1], h);
    }
  }

  lemma {:induction false} JoinPaths(xs: seq<State>, ps: seq<Step>, ys: seq<State>, qs: seq<Step>, cfg: Config)
    requires IsPath(xs, ps, cfg) && IsPath(ys, qs, cfg) && xs[|ps|] == ys[0]
    ensures IsPath(xs + ys[1..], ps + qs, cfg)
    ensures (xs + ys[1..])[0] == xs[0] && (xs + ys[1..])[|ps + qs|] == ys[|qs|]
  {
    var states, steps := xs + ys[1..], ps + qs;
    forall k ensures Linked(states, steps, cfg, k) {
      assert Linked(xs, ps, cfg, k) && Linked(ys, qs, cfg, k - |ps|);
    }
  }

  lemma {:induction false} PerformsNothing(a: State, h: HandlerId, cfg: Config)
    ensures Performs(a, a, h, [], cfg)
  {
    assert IsPath([a], [], cfg) && Own([], h) == [];
  }

  lemma {:induction false} PerformsThen(a: State, b: State, c: State, h: HandlerId,
                                        first: seq<HandlerMove>, second: seq<HandlerMove>, cfg: Config)
    requires Performs(a, b, h, first, cfg) && Performs(b, c, h, second, cfg)
    ensures Performs(a, c, h, first + second, cfg)
  {
    var xs, ps :| IsPath(xs, ps, cfg) && xs[0] == a && xs[|ps|] == b && Own(ps, h) == first;
    var ys, qs :| IsPath(ys, qs, cfg) && ys[0] == b && ys[|qs|] == c && Own(qs, h) == second;
    JoinPaths(xs, ps, ys, qs, cfg);
    OwnAppend(ps, qs, h);
  }

  lemma {:induction false} PerformsFrom(a: State, b: State, c: State, h: HandlerId, moves: seq<HandlerMove>,
      cfg: Config)
    requires Performs(a, b, h, [], cfg) && Performs(b, c, h, moves, cfg)
    ensures Performs(a, c, h, moves, cfg)
  {
    PerformsThen(a, b, c, h, [], moves, cfg);
    assert [] + moves == moves;
  }

  lemma {:induction false} OneStep(s: State, step: Step, cfg: Config)
    requires Enabled(s, step, cfg)
    ensures IsPath([s, Apply(s, step, cfg)], [step], cfg)
  {
  }

  lemma {:induction false} PerformsMove(s: State, h: HandlerId, move: HandlerMove, cfg: Config)
    requires h in s.handlers && CanMove(s.handlers[h].phase, move)
    ensures Performs(s, Moved(s, h, move, cfg), h, [move], cfg)
  {
    var step := Handle(h, move);
    OneStep(s, step, cfg);
    assert [step][..0] == [];
    assert Own([step], h) == [move];
  }

  lemma {:induction false} PerformsOther(s: State, step: Step, h: HandlerId, cfg: Config)
    requires Enabled(s, step, cfg) && !step.Handle?
    ensures Performs(s, Apply(s, step, cfg), h, [], cfg)
  {
    OneStep(s, step, cfg);
    assert [step][..0] == [];
    assert Own([step], h) == [];
  }

  lemma {:induction false} StepReaches(s: State, step: Step, cfg: Config)
    requires Enabled(s, step, cfg)
    ensures Reaches(s, Apply(s, step, cfg), cfg)
  {
    OneStep(s, step, cfg);
  }

  lemma {:induction false} ReachesAcross(a: State, b: State, c: State, cfg: Config)
    requires Reaches(a, b, cfg) && Reaches(b, c, cfg)
    ensures Reaches(a, c, cfg)
  {
    var xs, ps :| IsPath(xs, ps, cfg) && xs[0] == a && xs[|ps|] == b;
    var ys, qs :| IsPath(ys, qs, cfg) && ys[0] == b && ys[|qs|] == c;
    JoinPaths(xs, ps, ys, qs, cfg);
  }

  // ---------- what only grows ----------

  lemma {:induction false} StepOnlyAdds(s: State, step: Step, cfg: Config)
    requires Enabled(s, step, cfg)
    ensures s.log <= Apply(s, step, cfg).log && s.dlq <= Apply(s, step, cfg).dlq && s.acked <= Apply(s, step, cfg).acked
  {
    match step
    case Handle(h, move) => MovesHaveFacts(s, h, move, cfg);
    case Poll(p, e, poll) => PollFacts(s, p, e, poll, cfg);
    case _ =>
  }

  lemma {:induction false} PathOnlyAdds(states: seq<State>, steps: seq<Step>, cfg: Config, k: nat)
    requires IsPath(states, steps, cfg) && k < |states|
    ensures states[0].log <= states[k].log && states[0].dlq <= states[k].dlq && states[0].acked <= states[k].acked
  {
    if k > 0 {
      PathOnlyAdds(states, steps, cfg, k - 1);
      assert Linked(states, steps, cfg, k - 1);
      StepOnlyAdds(states[k - 1], steps[k - 1], cfg);
    }
  }

  /** Messages, dead letters and acknowledgements are never taken back. */
  lemma {:induction false} PerformsOnlyAdds(a: State, b: State, h: HandlerId, moves: seq<HandlerMove>, cfg: Config)
    requires Performs(a, b, h, moves, cfg)
    ensures a.log <= b.log && a.dlq <= b.dlq && a.acked <= b.acked
  {
    var states, steps :| IsPath(states, steps, cfg) && states[0] == a && states[|steps|] == b && Own(steps, h) == moves;
    PathOnlyAdds(states, steps, cfg, |steps|);
  }

  // ---------- progress ----------

  lemma {:induction false} CanBeDelivered(s: State, o: nat, cfg: Config) returns (h: HandlerId, s': State)
    requires o < |s.log| && o !in s.acked && s.log[o].event !in s.processed
    ensures Reaches(s, s', cfg) && s' == s.(handlers := s.handlers[h := Handler(o, s.log[o], Received)])
  {
    h := Bounded(s.handlers.Keys);
    s' := Apply(s, Deliver(h, o), cfg);
    StepReaches(s, Deliver(h, o), cfg);
  }

  lemma {:induction false} CanBeClaimed(s: State, h: HandlerId, deadline: int, cfg: Config) returns (s': State)
    requires h in s.handlers && s.handlers[h].phase == Received
    requires var msg := s.handlers[h].msg;
             Visible(s.insights, msg.insight, msg.user) && s.insights[msg.insight].status == Queued
    ensures Reaches(s, s', cfg)
    ensures var id := s.handlers[h].msg.insight;
            id in s'.insights && s'.insights[id] == s.insights[id].(status := Processing, deadline := Some(deadline))
  {
    s' := Apply(s, Handle(h, ClaimInsight(deadline)), cfg);
    StepReaches(s, Handle(h, ClaimInsight(deadline)), cfg);
  }

  /** An undelivered waiting event: delivered and claimed, its insight is PROCESSING. */
  lemma {:induction false} UndeliveredCanBeClaimed(s: State, e: EventId, deadline: int, cfg: Config) returns (s': State)
    requires Inv(s, cfg) && Waiting(s, e) && Undelivered(s, e)
    ensures Reaches(s, s', cfg) && s.events[e].insight in s'.insights
    ensures s'.insights[s.events[e].insight]
         == s.insights[s.events[e].insight].(status := Processing, deadline := Some(deadline))
  {
    var o :| 0 <= o < |s.log| && o !in s.acked && s.log[o].event == e;
    assert MessageOk(s, o) && EventOk(s, e);
    var h, s1 := CanBeDelivered(s, o, cfg);
    s' := CanBeClaimed(s1, h, deadline, cfg);
    ReachesAcross(s, s1, s', cfg);
  }

  /** A waiting PENDING row can be relayed, and its event is then undelivered. */
  lemma {:induction false} PendingCanBeSent(s: State, e: EventId, cfg: Config) returns (s': State)
    requires Inv(s, cfg) && Waiting(s, e) && e !in s.dlq && PendingRow(s, e) && INSIGHT_REQUESTED in cfg.topics
    ensures Inv(s', cfg) && Reaches(s, s', cfg) && Waiting(s', e) && Undelivered(s', e)
    ensures s'.events == s.events && s'.insights == s.insights
  {
    var p := Bounded(s.owing.Keys);
    assert RowOk(s, e) && EventOk(s, e);
    assert forall o :: o in s.acked ==> o < |s.log|;
    s' := Apply(s, Poll(p, e, Send), cfg);
    StepKeepsInv(s, Poll(p, e, Send), cfg);
    StepReaches(s, Poll(p, e, Send), cfg);
    assert s'.log[|s.log|].event == e && |s.log| !in s'.acked;
  }

  lemma {:induction false} FailedCanBeReplayed(s: State, e: EventId, cfg: Config) returns (s': State)
    requires Inv(s, cfg) && Waiting(s, e) && e !in s.dlq && e in s.outbox && s.outbox[e].status == FAILED
    ensures Inv(s', cfg) && Reaches(s, s', cfg) && Waiting(s', e) && e !in s'.dlq && PendingRow(s', e)
    ensures s'.events == s.events && s'.insights == s.insights
  {
    s' := Apply(s, Replay({e}), cfg);
    StepKeepsInv(s, Replay({e}), cfg);
    StepReaches(s, Replay({e}), cfg);
  }

  /** No QUEUED insight is ever beyond help: unless its event was dead-lettered, some path
      of relaying, replaying and delivering ends in a claim of exactly that insight. */
  lemma {:induction false} QueuedCanBeClaimed(s: State, id: InsightId, deadline: int, cfg: Config) returns (s': State)
    requires Inv(s, cfg) && id in s.insights && s.insights[id].status == Queued
    requires INSIGHT_REQUESTED in cfg.topics && id in s.latest && s.latest[id] !in s.dlq
    ensures Reaches(s, s', cfg) && id in s'.insights
    ensures s'.insights[id] == s.insights[id].(status := Processing, deadline := Some(deadline))
  {
    var e := s.latest[id];
    assert LatestOk(s, id) && EventOk(s, e);
    assert Waiting(s, e) && Traceable(s, e);
    if Undelivered(s, e) {
      s' := UndeliveredCanBeClaimed(s, e, deadline, cfg);
      return;
    }
    var s1 := s;
    if s.outbox[e].status == FAILED {
      s1 := FailedCanBeReplayed(s, e, cfg);
    }
    var s2 := PendingCanBeSent(s1, e, cfg);
    s' := UndeliveredCanBeClaimed(s2, e, deadline, cfg);
    ReachesAcross(s1, s2, s', cfg);
    if s1 != s {
      ReachesAcross(s, s1, s', cfg);
    }
  }
}
