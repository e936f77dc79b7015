/** What one handling of an event comes to when nobody else acts meanwhile: the stores
    after it, in plain fields, for every way its foreign calls can turn out. */
module InsightOutcomes {
  import opened Wrappers
  import opened InsightRows
  import opened Outbox
  import opened Delivery
  import opened DeliveryPaths
  import opened InsightWorker

  /** Handler h makes these moves and nobody else does anything; None if one is not possible. */
  function Played(s: State, h: HandlerId, moves: seq<HandlerMove>, cfg: Config): Option<State>
    decreases |moves|
  {
    if moves == [] then Some(s)
    else if h in s.handlers && CanMove(s.handlers[h].phase, moves[0])
    then Played(Moved(s, h, moves[0], cfg), h, moves[1..], cfg)
    else None
  }

  lemma {:induction false} PlayedFirst(s: State, h: HandlerId, move: HandlerMove, rest: seq<HandlerMove>, cfg: Config)
    requires h in s.handlers && CanMove(s.handlers[h].phase, move)
    ensures Played(s, h, [move] + rest, cfg) == Played(Moved(s, h, move, cfg), h, rest, cfg)
  {
    assert ([move] + rest)[1..] == rest;
  }

  /** Such a handling is one of those in which the others may act: it is a path of the protocol. */
  lemma {:induction false} PlayedPerforms(s: State, h: HandlerId, moves: seq<HandlerMove>, cfg: Config)
    requires Played(s, h, moves, cfg).Some?
    ensures Performs(s, Played(s, h, moves, cfg).value, h, moves, cfg)
    decreases |moves|
  {
    if moves == [] {
      PerformsNothing(s, h, cfg);
    } else {
      var next := Moved(s, h, moves[0], cfg);
      PerformsMove(s, h, moves[0], cfg);
      PlayedPerforms(next, h, moves[1..], cfg);
      PerformsThen(s, next, Played(s, h, moves, cfg).value, h, [moves[0]], moves[1..], cfg);
      assert [moves[0]] + moves[1..] == moves;
    }
  }

  lemma {:induction false} PlayedThen(s: State, h: HandlerId, a: seq<HandlerMove>, b: seq<HandlerMove>, cfg: Config)
    requires Played(s, h, a, cfg).Some?
    ensures Played(s, h, a + b, cfg) == Played(Played(s, h, a, cfg).value, h, b, cfg)
    decreases |a|
  {
    if a == [] {
      assert a + b == b;
    } else {
      assert (a + b)[1..] == a[1..] + b;
      PlayedThen(Moved(s, h, a[0], cfg), h, a[1..], b, cfg);
    }
  }

  lemma {:induction false} PlayedOne(s: State, h: HandlerId, move: HandlerMove, cfg: Config)
    requires h in s.handlers && CanMove(s.handlers[h].phase, move)
    ensures Played(s, h, [move], cfg) == Some(Moved(s, h, move, cfg))
  {
    assert [move] + [] == [move];
    PlayedFirst(s, h, move, [], cfg);
  }

  lemma {:induction false} PlayedTwo(s: State, h: HandlerId, first: HandlerMove, second: HandlerMove, cfg: Config)
    requires h in s.handlers && CanMove(s.handlers[h].phase, first)
    requires var t := Moved(s, h, first, cfg); h in t.handlers && CanMove(t.handlers[h].phase, second)
    ensures Played(s, h, [first, second], cfg) == Some(Moved(Moved(s, h, first, cfg), h, second, cfg))
  {
    assert [first] + [second] == [first, second];
    PlayedFirst(s, h, first, [second], cfg);
    PlayedOne(Moved(s, h, first, cfg), h, second, cfg);
  }

  /** Handler h stands in this phase, the insights are these, and the other stores are as in s. */
  predicate Stands(at: State, s: State, h: HandlerId, hd: Handler, phase: Phase, insights: Table) {
    && h in at.handlers && at.handlers[h] == hd.(phase := phase)
    && at.insights == insights && at.failures == s.failures && at.dlq == s.dlq
    && at.processed == s.processed && at.acked == s.acked
  }

  /** The claim is possible. */
  predicate Claimable(t: Table, msg: Message) {
    msg.insight in t && t[msg.insight].user == msg.user && t[msg.insight].status == Queued
  }

  /** The `try` body goes through to a stored answer. */
  predicate Answered(script: Script) {
    && script.context == Rows && script.answer.Ok? && script.completeStorageOk
    && 1 <= script.answer.value.answer.impactScore <= 10
  }

  /** What the `try` body fails with when it does not. */
  function Failure(script: Script): string {
    match script.context
    case NoRows => "No transaction data found for this period"
    case ContextRaises(error) => error
    case Rows => if script.answer.Err? then script.answer.error else script.completeError
  }

  /** The insights after the `try` body: the claimed row holds the answer, the failure, or, if
      that was not recorded, still its lease. */
  function Built(t: Table, id: InsightId, script: Script): Table
    requires id in t
  {
    if Answered(script) then t[id := t[id].(status := Completed, content := Some(script.answer.value))]
    else if script.failureRecorded then t[id := t[id].(status := Failed, error := Some(Failure(script)))]
    else t
  }

  /** The insights after the use case: untouched without a claim. */
  function AfterUseCase(t: Table, msg: Message, script: Script): Table {
    if !script.claimStorageOk || !Claimable(t, msg) then t
    else
      var claimed := t[msg.insight].(status := Processing, deadline := Some(script.deadline));
      Built(t[msg.insight := claimed], msg.insight, script)
  }

  /** The use case raises on a storage error of the claim, and after a claim on anything but an
      answer or a period without data. */
  predicate UseCaseRaises(t: Table, msg: Message, script: Script) {
    !script.claimStorageOk || (Claimable(t, msg) && !Answered(script) && script.context != NoRows)
  }

  /** In plain fields: when the use case raises, and the one row it changes. */
  lemma {:induction false} UseCaseMeans(t: Table, msg: Message, script: Script)
    ensures var claims := script.claimStorageOk && msg.insight in t && t[msg.insight].user == msg.user
                          && t[msg.insight].status == Queued;
            var answers := script.context == Rows && script.answer.Ok? && script.completeStorageOk
                           && 1 <= script.answer.value.answer.impactScore <= 10;
            && UseCaseRaises(t, msg, script)
               == (!script.claimStorageOk || (claims && !answers && script.context != NoRows))
            && AfterUseCase(t, msg, script)
               == if !claims then t
                  else
                    var r, lease := t[msg.insight], Some(script.deadline);
                    t[msg.insight :=
                      if answers then Row(r.user, Completed, Some(script.answer.value), r.error, r.retryCount, lease)
                      else if !script.failureRecorded
                      then Row(r.user, Processing, r.content, r.error, r.retryCount, lease)
                      else Row(r.user, Failed, r.content, Some(Failure(script)), r.retryCount, lease)]
    ensures script.context == NoRows ==> Failure(script) == "No transaction data found for this period"
    ensures script.context.ContextRaises? ==> Failure(script) == script.context.error
    ensures script.context == Rows && script.answer.Err? ==> Failure(script) == script.answer.error
    ensures script.context == Rows && script.answer.Ok? ==> Failure(script) == script.completeError
  {
  }

  lemma {:induction false} FailureAlone(s: State, h: HandlerId, hd: Handler, t: Table, cfg: Config, move: HandlerMove,
      script: Script)
    returns (b: State)
    requires Stands(s, s, h, hd, hd.phase, t) && CanMove(hd.phase, move)
    requires move.NoData? || move.BuildRaises? || move.GenerateRaises? || move.CompleteRaises?
             || (move.CompleteInsight? && Complete(t, hd.msg.insight, hd.msg.user, hd.phase.content).None?)
    requires Visible(t, hd.msg.insight, hd.msg.user) && t[hd.msg.insight].status == Processing
    ensures Played(s, h, [move, FailureMove(script)], cfg) == Some(b)
    ensures Stands(b, s, h, hd, if move.NoData? then Finishing else Raising,
                   if script.failureRecorded
                   then t[hd.msg.insight := t[hd.msg.insight].(status := Failed, error := Some(move.error))] else t)
  {
    var mid := Moved(s, h, move, cfg);
    b := Moved(mid, h, FailureMove(script), cfg);
    PlayedTwo(s, h, move, FailureMove(script), cfg);
  }

  /** The completing transaction and what follows it. */
  lemma {:induction false} CompleteAlone(s: State, h: HandlerId, hd: Handler, t: Table, cfg: Config, script: Script)
    returns (b: State)
    requires script.context == Rows && script.answer.Ok?
    requires Stands(s, s, h, hd, hd.phase, t) && hd.phase == Generated(script.answer.value)
    requires Visible(t, hd.msg.insight, hd.msg.user) && t[hd.msg.insight].status == Processing
    ensures Played(s, h, CompleteMoves(script, Answered(script)), cfg) == Some(b)
    ensures Stands(b, s, h, hd, if Answered(script) then Finishing else Raising, Built(t, hd.msg.insight, script))
  {
    if !script.completeStorageOk {
      b := FailureAlone(s, h, hd, t, cfg, CompleteRaises(script.completeError), script);
    } else if Answered(script) {
      b := Moved(s, h, CompleteInsight(script.completeError), cfg);
      PlayedOne(s, h, CompleteInsight(script.completeError), cfg);
    } else {
      b := FailureAlone(s, h, hd, t, cfg, CompleteInsight(script.completeError), script);
    }
  }

  lemma {:induction false} GenerateAlone(s: State, h: HandlerId, hd: Handler, t: Table, cfg: Config, script: Script)
    returns (b: State)
    requires script.context == Rows && script.answer.Ok?
    requires Stands(s, s, h, hd, Building, t) && hd.phase == Building
    requires Visible(t, hd.msg.insight, hd.msg.user) && t[hd.msg.insight].status == Processing
    ensures Played(s, h, BuildMoves(script, Answered(script)), cfg) == Some(b)
    ensures Stands(b, s, h, hd, if Answered(script) then Finishing else Raising, Built(t, hd.msg.insight, script))
  {
    var generate := Generate(script.answer.value);
    var mid := Moved(s, h, generate, cfg);
    PlayedFirst(s, h, generate, CompleteMoves(script, Answered(script)), cfg);
    b := CompleteAlone(mid, h, hd.(phase := Generated(script.answer.value)), t, cfg, script);
  }

  /** The `try` body from its claim on. */
  lemma {:induction false} BuildAlone(s: State, h: HandlerId, hd: Handler, t: Table, cfg: Config, script: Script)
    returns (b: State)
    requires Stands(s, s, h, hd, Building, t) && hd.phase == Building
    requires Visible(t, hd.msg.insight, hd.msg.user) && t[hd.msg.insight].status == Processing
    ensures Played(s, h, BuildMoves(script, Answered(script)), cfg) == Some(b)
    ensures Stands(b, s, h, hd, if Answered(script) || script.context == NoRows then Finishing else Raising,
                   Built(t, hd.msg.insight, script))
  {
    match script.context
    case NoRows => b := FailureAlone(s, h, hd, t, cfg, HandlerMove.NoData(NO_DATA), script);
    case ContextRaises(error) => b := FailureAlone(s, h, hd, t, cfg, BuildRaises(error), script);
    case Rows =>
      if script.answer.Err? {
        b := FailureAlone(s, h, hd, t, cfg, GenerateRaises(script.answer.error), script);
      } else {
        b := GenerateAlone(s, h, hd, t, cfg, script);
      }
  }

  /** The use case. */
  lemma {:induction false} ProcessAlone(s: State, h: HandlerId, hd: Handler, cfg: Config, script: Script)
    returns (b: State)
    requires Stands(s, s, h, hd, Received, s.insights) && hd.phase == Received
    ensures Played(s, h, ProcessMoves(script, Claimable(s.insights, hd.msg), Answered(script)), cfg) == Some(b)
    ensures Stands(b, s, h, hd, if UseCaseRaises(s.insights, hd.msg, script) then Raising else Finishing,
                   AfterUseCase(s.insights, hd.msg, script))
  {
    if !script.claimStorageOk {
      b := Moved(s, h, ClaimRaises, cfg);
      PlayedOne(s, h, ClaimRaises, cfg);
    } else {
      var claim := ClaimInsight(script.deadline);
      var mid := Moved(s, h, claim, cfg);
      ClaimMeans(s.insights, hd.msg.insight, hd.msg.user, script.deadline);
      if Claimable(s.insights, hd.msg) {
        b := BuildAlone(mid, h, hd.(phase := Building), mid.insights, cfg, script);
        PlayedFirst(s, h, claim, BuildMoves(script, Answered(script)), cfg);
      } else {
        b := mid;
        PlayedOne(s, h, claim, cfg);
        assert [claim] + [] == [claim];
      }
    }
  }

  /** The failures of e with the present one. */
  function FailuresNow(s: State, e: EventId): nat {
    if e in s.failures then s.failures[e] + 1 else 1
  }

  /** The stores after the use case raised or the mark did: the failure is counted, and once the
      retries are used up the event is dead-lettered, marked and acknowledged. */
  predicate FailedEnd(b: State, s: State, e: EventId, offset: nat, script: Script, cfg: Config) {
    var parking := script.countOk && FailuresNow(s, e) >= cfg.consumerMaxRetries;
    var published := parking && script.publishOk;
    var marked := published && script.parkMarkOk;
    && b.failures == (if script.countOk then s.failures[e := FailuresNow(s, e)] else s.failures)
    && b.dlq == (if published then s.dlq + {e} else s.dlq)
    && b.processed == (if marked then s.processed + {e} else s.processed)
    && b.acked == (if marked then s.acked + {offset} else s.acked)
  }

  lemma {:induction false} ParkAlone(s: State, h: HandlerId, hd: Handler, cfg: Config, script: Script)
    returns (b: State)
    requires Stands(s, s, h, hd, Raising, s.insights) && hd.phase == Raising
    ensures var usedUp := FailuresNow(s, hd.msg.event) >= cfg.consumerMaxRetries;
            Played(s, h, ParkMoves(script, usedUp) + (if Parks(script, usedUp) then [Ack] else []), cfg) == Some(b)
    ensures h !in b.handlers && b.insights == s.insights
    ensures FailedEnd(b, s, hd.msg.event, hd.offset, script, cfg)
  {
    var usedUp := FailuresNow(s, hd.msg.event) >= cfg.consumerMaxRetries;
    var none: seq<HandlerMove> := [];
    if !script.countOk {
      b := Moved(s, h, Crash, cfg);
      PlayedOne(s, h, Crash, cfg);
      assert [Crash] + none == [Crash];
    } else {
      var counted := Moved(s, h, CountHandlerFailure, cfg);
      if !usedUp {
        b := counted;
        PlayedOne(s, h, CountHandlerFailure, cfg);
        assert [CountHandlerFailure] + none == [CountHandlerFailure];
      } else if !script.publishOk {
        b := Moved(counted, h, Crash, cfg);
        PlayedTwo(s, h, CountHandlerFailure, Crash, cfg);
        assert [CountHandlerFailure, Crash] + none == [CountHandlerFailure, Crash];
      } else {
        b := PublishAlone(counted, h, hd.(phase := Parking), cfg, script);
        var rest := if script.parkMarkOk then [Park, MarkProcessed, Ack] else [Park, Crash];
        PlayedFirst(s, h, CountHandlerFailure, rest, cfg);
        assert ParkMoves(script, usedUp) + (if Parks(script, usedUp) then [Ack] else [])
            == [CountHandlerFailure] + rest;
      }
    }
  }

  lemma {:induction false} PublishAlone(s: State, h: HandlerId, hd: Handler, cfg: Config, script: Script)
    returns (b: State)
    requires Stands(s, s, h, hd, Parking, s.insights) && hd.phase == Parking
    ensures Played(s, h, if script.parkMarkOk then [Park, MarkProcessed, Ack] else [Park, Crash], cfg) == Some(b)
    ensures h !in b.handlers && b.insights == s.insights && b.failures == s.failures
    ensures b.dlq == s.dlq + {hd.msg.event}
    ensures b.processed == if script.parkMarkOk then s.processed + {hd.msg.event} else s.processed
    ensures b.acked == if script.parkMarkOk then s.acked + {hd.offset} else s.acked
  {
    var parked := Moved(s, h, Park, cfg);
    if script.parkMarkOk {
      b := Moved(Moved(parked, h, MarkProcessed, cfg), h, Ack, cfg);
      PlayedTwo(parked, h, MarkProcessed, Ack, cfg);
      PlayedFirst(s, h, Park, [MarkProcessed, Ack], cfg);
      assert [Park] + [MarkProcessed, Ack] == [Park, MarkProcessed, Ack];
    } else {
      b := Moved(parked, h, Crash, cfg);
      PlayedTwo(s, h, Park, Crash, cfg);
    }
  }

  lemma {:induction false} MarkAlone(s: State, h: HandlerId, hd: Handler, cfg: Config) returns (b: State)
    requires Stands(s, s, h, hd, Finishing, s.insights) && hd.phase == Finishing
    ensures Played(s, h, [MarkProcessed, Ack], cfg) == Some(b)
    ensures h !in b.handlers && b.insights == s.insights
    ensures b.processed == s.processed + {hd.msg.event} && b.acked == s.acked + {hd.offset}
    ensures b.failures == s.failures && b.dlq == s.dlq
  {
    b := Moved(Moved(s, h, MarkProcessed, cfg), h, Ack, cfg);
    PlayedTwo(s, h, MarkProcessed, Ack, cfg);
  }

  lemma {:induction false} MarkFailsAlone(s: State, h: HandlerId, hd: Handler, cfg: Config, script: Script)
    returns (b: State)
    requires Stands(s, s, h, hd, Finishing, s.insights) && hd.phase == Finishing
    ensures var usedUp := FailuresNow(s, hd.msg.event) >= cfg.consumerMaxRetries;
            var rest := ParkMoves(script, usedUp) + (if Parks(script, usedUp) then [Ack] else []);
            Played(s, h, [MarkRaises] + rest, cfg) == Some(b)
    ensures h !in b.handlers && b.insights == s.insights
    ensures FailedEnd(b, s, hd.msg.event, hd.offset, script, cfg)
  {
    var usedUp := FailuresNow(s, hd.msg.event) >= cfg.consumerMaxRetries;
    b := ParkAlone(Moved(s, h, MarkRaises, cfg), h, hd.(phase := Raising), cfg, script);
    PlayedFirst(s, h, MarkRaises, ParkMoves(script, usedUp) + (if Parks(script, usedUp) then [Ack] else []), cfg);
  }

  lemma {:induction false} EndMovesAre(script: Script, raised: bool, usedUp: bool)
    ensures EndMoves(script, raised, usedUp)
            == if !raised && script.markOk then [MarkProcessed, Ack]
               else
                 var rest := ParkMoves(script, usedUp) + (if Parks(script, usedUp) then [Ack] else []);
                 if raised then rest else [MarkRaises] + rest
  {
  }

  /** What follows the use case. */
  lemma {:induction false} EndAlone(s: State, h: HandlerId, hd: Handler, cfg: Config, script: Script, raised: bool)
    returns (b: State)
    requires Stands(s, s, h, hd, if raised then Raising else Finishing, s.insights)
    requires hd.phase == if raised then Raising else Finishing
    ensures Played(s, h, EndMoves(script, raised, FailuresNow(s, hd.msg.event) >= cfg.consumerMaxRetries), cfg)
            == Some(b)
    ensures h !in b.handlers && b.insights == s.insights
    ensures if raised || !script.markOk then FailedEnd(b, s, hd.msg.event, hd.offset, script, cfg)
            else && b.processed == s.processed + {hd.msg.event} && b.acked == s.acked + {hd.offset}
                 && b.failures == s.failures && b.dlq == s.dlq
  {
    EndMovesAre(script, raised, FailuresNow(s, hd.msg.event) >= cfg.consumerMaxRetries);
    if raised {
      b := ParkAlone(s, h, hd, cfg, script);
    } else if script.markOk {
      b := MarkAlone(s, h, hd, cfg);
    } else {
      b := MarkFailsAlone(s, h, hd, cfg, script);
    }
  }

  /** An undisturbed handling in plain fields. A claimable insight ends COMPLETED with the answer,
      or FAILED with what went wrong; any other is left alone. The event is marked and
      acknowledged unless something raised; then the failure is counted, and the event parked
      exactly when that was the last one allowed. */
  lemma {:induction false} HandledAlone(s: State, h: HandlerId, offset: nat, script: Script, cfg: Config)
    returns (b: State)
    requires h !in s.handlers && offset < |s.log|
    ensures var msg := s.log[offset];
            var raised := UseCaseRaises(s.insights, msg, script);
            var moves := ProcessMoves(script, Claimable(s.insights, msg), Answered(script))
                         + EndMoves(script, raised, FailuresNow(s, msg.event) >= cfg.consumerMaxRetries);
            && Played(s.(handlers := s.handlers[h := Handler(offset, msg, Received)]), h, moves, cfg) == Some(b)
            && h !in b.handlers && b.insights == AfterUseCase(s.insights, msg, script)
            && if raised || !script.markOk then FailedEnd(b, s, msg.event, offset, script, cfg)
               else && b.processed == s.processed + {msg.event} && b.acked == s.acked + {offset}
                    && b.failures == s.failures && b.dlq == s.dlq
  {
    var msg := s.log[offset];
    var hd := Handler(offset, msg, Received);
    var start := s.(handlers := s.handlers[h := hd]);
    var raised := UseCaseRaises(s.insights, msg, script);
    var mid := ProcessAlone(start, h, hd, cfg, script);
    b := EndAlone(mid, h, hd.(phase := if raised then Raising else Finishing), cfg, script, raised);
    PlayedThen(start, h, ProcessMoves(script, Claimable(s.insights, msg), Answered(script)),
               EndMoves(script, raised, FailuresNow(s, msg.event) >= cfg.consumerMaxRetries), cfg);
  }
}
