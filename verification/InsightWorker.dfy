/** The sequential code of the consumer and the worker. The event handler is run move by
    move against the shared stores, with every other process free to act between any two
    of its moves; which moves it makes is determined by how its foreign calls turn out and
    by what it finds in the stores. */
module InsightWorker {
  import opened Wrappers
  import opened InsightRows
  import opened Outbox
  import opened Delivery
  import opened DeliveryInvariant
  import opened DeliveryPaths
  import opened InsightRepository

  /** How the foreign calls of one handling turn out. */
  datatype Script = Script(
    claimStorageOk: bool,
    deadline: int,
    context: ContextOutcome,
    answer: Result<Content, string>,
    completeStorageOk: bool,
    completeError: string,
    failureRecorded: bool,
    markOk: bool,
    countOk: bool,
    publishOk: bool,
    parkMarkOk: bool)

  datatype ContextOutcome = Rows | NoRows | ContextRaises(error: string)

  const NO_DATA: string := "No transaction data found for this period"

  // ---------- which moves are made ----------

  function FailureMove(script: Script): HandlerMove {
    if script.failureRecorded then RecordInsightFailure else LoseInsightFailure
  }

  /** Whether the completing transaction gets as far as the row. */
  predicate TriesCompletion(script: Script) {
    script.context == Rows && script.answer.Ok? && script.completeStorageOk
  }

  /** The moves after a successful claim, given whether the completion was accepted. */
  function BuildMoves(script: Script, completed: bool): seq<HandlerMove> {
    match script.context
    case NoRows => [NoData(NO_DATA), FailureMove(script)]
    case ContextRaises(error) => [BuildRaises(error), FailureMove(script)]
    case Rows =>
      if script.answer.Err? then [GenerateRaises(script.answer.error), FailureMove(script)]
      else [Generate(script.answer.value)] + CompleteMoves(script, completed)
  }

  function CompleteMoves(script: Script, completed: bool): seq<HandlerMove> {
    if !script.completeStorageOk then [CompleteRaises(script.completeError), FailureMove(script)]
    else if !completed then [CompleteInsight(script.completeError), FailureMove(script)]
    else [CompleteInsight(script.completeError)]
  }

  predicate BuildRaisesUp(script: Script, completed: bool) {
    match script.context
    case NoRows => false
    case ContextRaises(_) => true
    case Rows => script.answer.Err? || !script.completeStorageOk || !completed
  }

  /** The moves of the use case, given whether the claim and the completion were accepted. */
  function ProcessMoves(script: Script, claimed: bool, completed: bool): seq<HandlerMove> {
    if !script.claimStorageOk then [ClaimRaises]
    else [ClaimInsight(script.deadline)] + (if claimed then BuildMoves(script, completed) else [])
  }

  /** The use case raises on a storage error of the claim and on anything after it except
      a period without data; a refused claim is a normal end. */
  predicate ProcessRaises(script: Script, claimed: bool, completed: bool) {
    !script.claimStorageOk || (claimed && BuildRaisesUp(script, completed))
  }

  /** The moves of the `except` branch, given whether the failures are used up. */
  function ParkMoves(script: Script, usedUp: bool): seq<HandlerMove> {
    if !script.countOk then [Crash]
    else if !usedUp then [CountHandlerFailure]
    else if !script.publishOk then [CountHandlerFailure, Crash]
    else if !script.parkMarkOk then [CountHandlerFailure, Park, Crash]
    else [CountHandlerFailure, Park, MarkProcessed]
  }

  /** The moves from the dead letter on. */
  function PublishMoves(script: Script): seq<HandlerMove> {
    [Park] + (if script.parkMarkOk then [MarkProcessed] else [Crash])
  }

  predicate Parks(script: Script, usedUp: bool) {
    script.countOk && usedUp && script.publishOk && script.parkMarkOk
  }

  /** The moves after the use case returned or raised, up to the acknowledgement. */
  function EndMoves(script: Script, raised: bool, usedUp: bool): seq<HandlerMove> {
    if !raised && script.markOk then [MarkProcessed, Ack]
    else BeforeCount(raised) + ParkMoves(script, usedUp) + (if Parks(script, usedUp) then [Ack] else [])
  }

  /** Whether a failure is counted, and the moves between the use case and the count. */
  predicate Counts(script: Script, raised: bool) {
    (raised || !script.markOk) && script.countOk
  }

  function BeforeCount(raised: bool): seq<HandlerMove> {
    if raised then [] else [MarkRaises]
  }

  predicate EndsAcked(script: Script, raised: bool, usedUp: bool) {
    (!raised && script.markOk) || Parks(script, usedUp)
  }

  // ---------- where on the path ----------

  /** On the way from a to b the state `at` was passed, after `before` and ahead of `after`. */
  ghost predicate Passes(a: State, at: State, b: State, h: HandlerId, before: seq<HandlerMove>,
                         after: seq<HandlerMove>, cfg: Config)
  {
    Performs(a, at, h, before, cfg) && Performs(at, b, h, after, cfg)
  }

  predicate ClaimAccepted(at: State, msg: Message, script: Script) {
    Claim(at.insights, msg.insight, msg.user, script.deadline).Ok?
  }

  predicate CompletionAccepted(at: State, msg: Message, content: Content) {
    Complete(at.insights, msg.insight, msg.user, content).Some?
  }

  /** Counting one more failure of e uses up the consumer's retries. */
  predicate FailuresUsedUp(at: State, e: EventId, cfg: Config) {
    Bump(at.failures, e)[e] >= cfg.consumerMaxRetries
  }

  /** From a to b the `try` body after a claim was run: the script and the completion found
      possible or not at `at` determine its moves. */
  ghost predicate BuiltAs(a: State, b: State, h: HandlerId, msg: Message, script: Script, completed: bool, at: State,
                          cfg: Config)
  {
    && Performs(a, b, h, BuildMoves(script, completed), cfg)
    && (TriesCompletion(script) ==>
          && completed == CompletionAccepted(at, msg, script.answer.value)
          && Passes(a, at, b, h, [Generate(script.answer.value)], CompleteMoves(script, completed), cfg))
  }

  /** From a to b the use case was run: besides, whether it claimed is whether the claim was
      possible at `claimAt`. */
  ghost predicate ProcessedAs(a: State, b: State, h: HandlerId, msg: Message, script: Script, claimed: bool,
                              completed: bool, claimAt: State, completeAt: State, cfg: Config)
  {
    && Performs(a, b, h, ProcessMoves(script, claimed, completed), cfg)
    && (script.claimStorageOk ==>
          && claimed == ClaimAccepted(claimAt, msg, script)
          && Passes(a, claimAt, b, h, [], ProcessMoves(script, claimed, completed), cfg))
    && (script.claimStorageOk && claimed && TriesCompletion(script) ==>
          && completed == CompletionAccepted(completeAt, msg, script.answer.value)
          && Passes(a, completeAt, b, h, [ClaimInsight(script.deadline), Generate(script.answer.value)],
                    CompleteMoves(script, completed), cfg))
  }

  /** From a to b the `except` branch was run: whether it parked is whether the failures
      were used up at `countAt`. */
  ghost predicate ParkedAs(a: State, b: State, h: HandlerId, e: EventId, script: Script, usedUp: bool, countAt: State,
                           cfg: Config)
  {
    && Performs(a, b, h, ParkMoves(script, usedUp), cfg)
    && (script.countOk ==>
          && usedUp == FailuresUsedUp(countAt, e, cfg)
          && Passes(a, countAt, b, h, [], ParkMoves(script, usedUp), cfg))
  }

  /** From a to b everything after the use case was run, up to the acknowledgement. */
  ghost predicate EndedAs(a: State, b: State, h: HandlerId, e: EventId, script: Script, raised: bool, usedUp: bool,
                          countAt: State, cfg: Config)
  {
    && Performs(a, b, h, EndMoves(script, raised, usedUp), cfg)
    && (Counts(script, raised) ==>
          && usedUp == FailuresUsedUp(countAt, e, cfg)
          && Performs(a, countAt, h, BeforeCount(raised), cfg))
  }

  lemma {:induction false} ClaimThenBuild(a: State, claimAt: State, started: State, b: State, h: HandlerId,
      msg: Message, script: Script, completed: bool, completeAt: State, cfg: Config)
    requires script.claimStorageOk && ClaimAccepted(claimAt, msg, script)
    requires Passes(a, claimAt, started, h, [], [ClaimInsight(script.deadline)], cfg)
    requires BuiltAs(started, b, h, msg, script, completed, completeAt, cfg)
    ensures ProcessedAs(a, b, h, msg, script, true, completed, claimAt, completeAt, cfg)
  {
    var claim := ClaimInsight(script.deadline);
    PerformsFrom(a, claimAt, started, h, [claim], cfg);
    PerformsThen(a, started, b, h, [claim], BuildMoves(script, completed), cfg);
    PerformsThen(claimAt, started, b, h, [claim], BuildMoves(script, completed), cfg);
    if TriesCompletion(script) {
      PerformsThen(a, started, completeAt, h, [claim], [Generate(script.answer.value)], cfg);
    }
  }

  lemma {:induction false} ClaimOnly(a: State, claimAt: State, b: State, h: HandlerId, msg: Message, script: Script,
                                     completeAt: State, cfg: Config)
    requires script.claimStorageOk && !ClaimAccepted(claimAt, msg, script)
    requires Passes(a, claimAt, b, h, [], [ClaimInsight(script.deadline)], cfg)
    ensures ProcessedAs(a, b, h, msg, script, false, false, claimAt, completeAt, cfg)
  {
    var claim := ClaimInsight(script.deadline);
    assert [claim] + [] == [claim];
    PerformsFrom(a, claimAt, b, h, [claim], cfg);
  }

  lemma {:induction false} ProcessedFrom(a: State, b: State, c: State, h: HandlerId, msg: Message, script: Script,
                                         claimed: bool, completed: bool, claimAt: State, completeAt: State, cfg: Config)
    requires Performs(a, b, h, [], cfg)
    requires ProcessedAs(b, c, h, msg, script, claimed, completed, claimAt, completeAt, cfg)
    ensures ProcessedAs(a, c, h, msg, script, claimed, completed, claimAt, completeAt, cfg)
  {
    PerformsFrom(a, b, c, h, ProcessMoves(script, claimed, completed), cfg);
    if script.claimStorageOk {
      PerformsFrom(a, b, claimAt, h, [], cfg);
      if claimed && TriesCompletion(script) {
        PerformsFrom(a, b, completeAt, h, [ClaimInsight(script.deadline), Generate(script.answer.value)], cfg);
      }
    }
  }

  lemma {:induction false} CountThen(a: State, countAt: State, counted: State, b: State, h: HandlerId, e: EventId,
                                     script: Script, rest: seq<HandlerMove>, cfg: Config)
    requires script.countOk && FailuresUsedUp(countAt, e, cfg)
    requires Passes(a, countAt, counted, h, [], [CountHandlerFailure], cfg) && Performs(counted, b, h, rest, cfg)
    requires rest == if script.publishOk then PublishMoves(script) else [Crash]
    ensures ParkedAs(a, b, h, e, script, true, countAt, cfg)
  {
    PerformsFrom(a, countAt, counted, h, [CountHandlerFailure], cfg);
    PerformsThen(a, counted, b, h, [CountHandlerFailure], rest, cfg);
    PerformsThen(countAt, counted, b, h, [CountHandlerFailure], rest, cfg);
  }

  /** The way through the `except` branch, with or without the mark that raised before it. */
  lemma {:induction false} ParkedEnds(a: State, raising: State, parked: State, b: State, h: HandlerId, e: EventId,
                                      script: Script, raised: bool, usedUp: bool, countAt: State, cfg: Config)
    requires raised || !script.markOk
    requires Performs(a, raising, h, BeforeCount(raised), cfg)
    requires ParkedAs(raising, parked, h, e, script, usedUp, countAt, cfg)
    requires if Parks(script, usedUp) then Performs(parked, b, h, [Ack], cfg) else b == parked
    ensures EndedAs(a, b, h, e, script, raised, usedUp, countAt, cfg)
  {
    var first, second := BeforeCount(raised), ParkMoves(script, usedUp);
    PerformsThen(a, raising, parked, h, first, second, cfg);
    if Parks(script, usedUp) {
      PerformsThen(a, parked, b, h, first + second, [Ack], cfg);
    } else {
      assert first + second + [] == first + second;
    }
    if script.countOk {
      PerformsThen(a, raising, countAt, h, first, [], cfg);
      assert first + [] == first;
    }
  }

  /** The message is acknowledged exactly if the use case raised nothing and its event was marked,
      or the failures are used up and the dead letter was published and marked. */
  lemma {:induction false} AckedInPlain(msg: Message, script: Script, claimed: bool, completed: bool, usedUp: bool,
                                        claimAt: State, completeAt: State, countAt: State, cfg: Config)
    ensures var raised := !script.claimStorageOk
                          || (claimed && script.context != NoRows
                              && !(script.context == Rows && script.answer.Ok?
                                   && script.completeStorageOk && completed));
            && ProcessRaises(script, claimed, completed) == raised
            && EndsAcked(script, raised, usedUp)
               == ((!raised && script.markOk)
                   || (script.countOk && usedUp && script.publishOk && script.parkMarkOk))
            && Counts(script, raised) == ((raised || !script.markOk) && script.countOk)
    ensures ClaimAccepted(claimAt, msg, script)
            == (msg.insight in claimAt.insights && claimAt.insights[msg.insight].user == msg.user
                && claimAt.insights[msg.insight].status == Queued)
    ensures TriesCompletion(script) == (script.context == Rows && script.answer.Ok? && script.completeStorageOk)
    ensures TriesCompletion(script) ==>
              CompletionAccepted(completeAt, msg, script.answer.value)
              == (msg.insight in completeAt.insights && completeAt.insights[msg.insight].user == msg.user
                  && completeAt.insights[msg.insight].status == Processing
                  && 1 <= script.answer.value.answer.impactScore <= 10)
    ensures FailuresUsedUp(countAt, msg.event, cfg)
            == ((if msg.event in countAt.failures then countAt.failures[msg.event] + 1 else 1)
                >= cfg.consumerMaxRetries)
  {
  }

  /** What a move leaves in the stores besides the handler's phase. */
  predicate Leaves(at: State, s: State, hd: Handler, move: HandlerMove) {
    && (move.CountHandlerFailure? ==> s.failures == Bump(at.failures, hd.msg.event))
    && (move.Park? ==> hd.msg.event in s.dlq)
    && (move.MarkProcessed? && hd.phase.Parked? ==> hd.msg.event in s.dlq)
    && (move.MarkProcessed? ==> hd.msg.event in s.processed)
    && (move.Ack? ==> hd.offset in s.acked && Done(s, hd.msg.event))
  }

  lemma {:induction false} MoveLeaves(s: State, h: HandlerId, move: HandlerMove, cfg: Config)
    requires Inv(s, cfg) && h in s.handlers && CanMove(s.handlers[h].phase, move)
    ensures Leaves(s, Moved(s, h, move, cfg), s.handlers[h], move)
  {
    assert HandlerAccounted(s, s.handlers[h]);
  }

  /** The transaction a move runs, by the repository's own methods. */
  method RunTransaction(t: Table, hd: Handler, move: HandlerMove) returns (t': Table)
    requires CanMove(hd.phase, move)
    ensures t' == TableAfter(t, hd, move)
  {
    var repo := new Repository(t);
    match move {
      case ClaimInsight(deadline) =>
        var r := repo.ClaimForProcessing(hd.msg.insight, hd.msg.user, deadline);
      case CompleteInsight(_) =>
        var ok := repo.CompleteInsight(hd.msg.insight, hd.msg.user, hd.phase.content);
      case RecordInsightFailure =>
        repo.RecordInsightFailure(hd.msg.insight, hd.msg.user, hd.phase.error);
      case _ =>
    }
    t' := repo.rows;
  }

  lemma {:induction false} SkipSettles(s: State, h: HandlerId, offset: nat, cfg: Config)
    requires Inv(s, cfg) && offset < |s.log| && offset !in s.acked && s.log[offset].event in s.processed
    ensures var s' := s.(acked := s.acked + {offset});
            Inv(s', cfg) && Performs(s, s', h, [], cfg) && Done(s', s.log[offset].event)
  {
    assert Done(s, s.log[offset].event);
    StepKeepsInv(s, SkipDuplicate(offset), cfg);
    PerformsOther(s, SkipDuplicate(offset), h, cfg);
  }

  lemma {:induction false} DeliverStarts(s: State, h: HandlerId, offset: nat, cfg: Config)
    requires Inv(s, cfg) && h !in s.handlers && offset < |s.log| && offset !in s.acked
    requires s.log[offset].event !in s.processed
    ensures var s' := s.(handlers := s.handlers[h := Handler(offset, s.log[offset], Received)]);
            Inv(s', cfg) && Performs(s, s', h, [], cfg)
  {
    StepKeepsInv(s, Deliver(h, offset), cfg);
    PerformsOther(s, Deliver(h, offset), h, cfg);
  }

  class Worker {
    var s: State
    const cfg: Config

    constructor (s: State, cfg: Config)
      ensures this.s == s && this.cfg == cfg
    {
      this.s := s;
      this.cfg := cfg;
    }

    /** Any number of steps of the other processes. Callers know only the contract;
        the body is one such environment, the idle one. */
    method Environment(h: HandlerId)
      requires Inv(s, cfg)
      modifies this`s
      ensures Inv(s, cfg) && Performs(old(s), s, h, [], cfg)
      ensures h in s.handlers <==> h in old(s).handlers
      ensures h in s.handlers ==> s.handlers[h] == old(s).handlers[h]
    {
      PerformsNothing(s, h, cfg);
    }

    /** One move of handler h, from the state `at` that the others left it. */
    method Move(h: HandlerId, move: HandlerMove) returns (ghost at: State)
      requires Inv(s, cfg) && h in s.handlers && CanMove(s.handlers[h].phase, move)
      modifies this`s
      ensures Inv(s, cfg) && Passes(old(s), at, s, h, [], [move], cfg) && Performs(old(s), s, h, [move], cfg)
      ensures h in s.handlers <==> PhaseAfter(at, old(s).handlers[h], move, cfg).Some?
      ensures h in s.handlers ==>
                s.handlers[h] == old(s).handlers[h].(phase := PhaseAfter(at, old(s).handlers[h], move, cfg).value)
      ensures Leaves(at, s, old(s).handlers[h], move)
    {
      Environment(h);
      at := s;
      var t := RunTransaction(s.insights, s.handlers[h], move);
      ghost var next := Moved(s, h, move, cfg);
      StepKeepsInv(s, Handle(h, move), cfg);
      MoveLeaves(s, h, move, cfg);
      PerformsMove(s, h, move, cfg);
      PerformsFrom(old(s), s, next, h, [move], cfg);
      s := Moved(s, h, move, cfg).(insights := t);
    }

    /** The failure-recording transaction: best effort. */
    method RecordFailure(h: HandlerId, script: Script)
      requires Inv(s, cfg) && h in s.handlers && s.handlers[h].phase.RecordingFailure?
      modifies this`s
      ensures Inv(s, cfg) && Performs(old(s), s, h, [FailureMove(script)], cfg)
      ensures h in s.handlers
      ensures s.handlers[h] == old(s).handlers[h].(phase := AfterFailure(old(s).handlers[h].phase.raises))
    {
      ghost var at := Move(h, FailureMove(script));
    }

    /** A move into the failure path, then the record. */
    method FailWith(h: HandlerId, move: HandlerMove, script: Script)
      requires Inv(s, cfg) && h in s.handlers && CanMove(s.handlers[h].phase, move)
      requires move.NoData? || move.BuildRaises? || move.GenerateRaises? || move.CompleteRaises?
      modifies this`s
      ensures Inv(s, cfg) && Performs(old(s), s, h, [move, FailureMove(script)], cfg)
      ensures h in s.handlers
      ensures s.handlers[h] == old(s).handlers[h].(phase := AfterFailure(!move.NoData?))
    {
      ghost var at := Move(h, move);
      ghost var failing := s;
      RecordFailure(h, script);
      PerformsThen(old(s), failing, s, h, [move], [FailureMove(script)], cfg);
    }

    /** `complete_insight`, and the failure path when it raises. */
    method Complete(h: HandlerId, script: Script) returns (raised: bool, ghost completed: bool, ghost at: State)
      requires Inv(s, cfg) && h in s.handlers && s.handlers[h].phase.Generated?
      modifies this`s
      ensures Inv(s, cfg) && Performs(old(s), s, h, CompleteMoves(script, completed), cfg)
      ensures raised == !(script.completeStorageOk && completed)
      ensures script.completeStorageOk ==>
                && completed == CompletionAccepted(at, old(s).handlers[h].msg, old(s).handlers[h].phase.content)
                && Passes(old(s), at, s, h, [], CompleteMoves(script, completed), cfg)
      ensures h in s.handlers && s.handlers[h] == old(s).handlers[h].(phase := if raised then Raising else Finishing)
    {
      at, completed := s, false;
      if !script.completeStorageOk {
        FailWith(h, CompleteRaises(script.completeError), script);
        return true, false, at;
      }
      at := Move(h, CompleteInsight(script.completeError));
      ghost var tried := s;
      completed := s.handlers[h].phase == Finishing;
      if s.handlers[h].phase == Finishing { return false, true, at; }
      RecordFailure(h, script);
      PerformsThen(old(s), tried, s, h, [CompleteInsight(script.completeError)], [FailureMove(script)], cfg);
      PerformsThen(at, tried, s, h, [CompleteInsight(script.completeError)], [FailureMove(script)], cfg);
      return true, false, at;
    }

    /** The `try` body after the claim. */
    method BuildAndGenerate(h: HandlerId, script: Script) returns (raised: bool, ghost completed: bool, ghost at: State)
      requires Inv(s, cfg) && h in s.handlers && s.handlers[h].phase == Building
      modifies this`s
      ensures Inv(s, cfg) && BuiltAs(old(s), s, h, old(s).handlers[h].msg, script, completed, at, cfg)
      ensures raised == BuildRaisesUp(script, completed)
      ensures h in s.handlers && s.handlers[h] == old(s).handlers[h].(phase := if raised then Raising else Finishing)
    {
      at, completed := s, false;
      match script.context {
        case NoRows =>
          FailWith(h, HandlerMove.NoData(NO_DATA), script);
          return false, false, at;
        case ContextRaises(error) =>
          FailWith(h, BuildRaises(error), script);
          return true, false, at;
        case Rows =>
      }
      if script.answer.Err? {
        FailWith(h, GenerateRaises(script.answer.error), script);
        return true, false, at;
      }
      var generate := Generate(script.answer.value);
      ghost var before := Move(h, generate);
      ghost var generated := s;
      raised, completed, at := Complete(h, script);
      PerformsThen(old(s), generated, s, h, [generate], CompleteMoves(script, completed), cfg);
      if script.completeStorageOk {
        PerformsThen(old(s), generated, at, h, [generate], [], cfg);
        assert [generate] + [] == [generate];
      }
    }

    /** `ProcessInsightUseCase.__call__`: the script, the claim it finds possible at
        `claimAt` and the completion it finds possible at `completeAt` determine its
        moves and whether it raises. */
    method ProcessInsight(h: HandlerId, script: Script)
      returns (raised: bool, ghost claimed: bool, ghost completed: bool, ghost claimAt: State, ghost completeAt: State)
      requires Inv(s, cfg) && h in s.handlers && s.handlers[h].phase == Received
      modifies this`s
      ensures Inv(s, cfg)
      ensures ProcessedAs(old(s), s, h, old(s).handlers[h].msg, script, claimed, completed, claimAt, completeAt, cfg)
      ensures raised == ProcessRaises(script, claimed, completed)
      ensures h in s.handlers && s.handlers[h] == old(s).handlers[h].(phase := if raised then Raising else Finishing)
    {
      claimed, completed, completeAt := false, false, s;
      if !script.claimStorageOk {
        claimAt := Move(h, ClaimRaises);
        return true, false, false, claimAt, completeAt;
      }
      ghost var msg := s.handlers[h].msg;
      claimAt := Move(h, ClaimInsight(script.deadline));
      claimed := s.handlers[h].phase == Building;
      if s.handlers[h].phase == Finishing {
        ClaimOnly(old(s), claimAt, s, h, msg, script, completeAt, cfg);
        return false, false, false, claimAt, completeAt;         // already claimed, terminal or missing: a skip
      }
      ghost var started := s;
      raised, completed, completeAt := BuildAndGenerate(h, script);
      ClaimThenBuild(old(s), claimAt, started, s, h, msg, script, completed, completeAt, cfg);
    }

    /** The `except` branch: the failure is counted at `countAt`; once the retries are used
        up the event is dead-lettered and marked, otherwise the exception goes on and the
        message stays unacknowledged. So it does when one of the three calls raises. */
    method ParkOrRaise(h: HandlerId, script: Script) returns (parked: bool, ghost usedUp: bool, ghost countAt: State)
      requires Inv(s, cfg) && h in s.handlers && s.handlers[h].phase == Raising
      modifies this`s
      ensures Inv(s, cfg)
      ensures ParkedAs(old(s), s, h, old(s).handlers[h].msg.event, script, usedUp, countAt, cfg)
      ensures script.countOk && !usedUp ==> s.failures == Bump(countAt.failures, old(s).handlers[h].msg.event)
      ensures parked == Parks(script, usedUp)
      ensures parked <==> h in s.handlers
      ensures parked ==>
                && s.handlers[h] == old(s).handlers[h].(phase := Acking)
                && old(s).handlers[h].msg.event in s.dlq && old(s).handlers[h].msg.event in s.processed
    {
      usedUp := false;
      ghost var e := s.handlers[h].msg.event;
      if !script.countOk {
        countAt := Move(h, Crash);
        return false, false, countAt;
      }
      countAt := Move(h, CountHandlerFailure);
      usedUp := h in s.handlers;
      if h !in s.handlers { return false, false, countAt; }
      ghost var counted := s;
      if script.publishOk {
        parked := PublishAndMark(h, script);
        CountThen(old(s), countAt, counted, s, h, e, script, PublishMoves(script), cfg);
      } else {
        ghost var at := Move(h, Crash);
        CountThen(old(s), countAt, counted, s, h, e, script, [Crash], cfg);
        parked := false;
      }
    }

    /** The dead letter, then the mark. */
    method PublishAndMark(h: HandlerId, script: Script) returns (marked: bool)
      requires Inv(s, cfg) && h in s.handlers && s.handlers[h].phase == Parking
      modifies this`s
      ensures Inv(s, cfg) && Performs(old(s), s, h, PublishMoves(script), cfg)
      ensures marked == script.parkMarkOk && (marked <==> h in s.handlers)
      ensures marked ==>
                && s.handlers[h] == old(s).handlers[h].(phase := Acking)
                && old(s).handlers[h].msg.event in s.dlq && old(s).handlers[h].msg.event in s.processed
    {
      ghost var at := Move(h, Park);
      ghost var parked := s;
      ghost var last := if script.parkMarkOk then MarkProcessed else Crash;
      if script.parkMarkOk { at := Move(h, MarkProcessed); } else { at := Move(h, Crash); }
      PerformsThen(old(s), parked, s, h, [Park], [last], cfg);
      return script.parkMarkOk;
    }

    /** The duplicate check: a marked event is acknowledged at once. */
    method Receive(h: HandlerId, offset: nat) returns (duplicate: bool)
      requires Inv(s, cfg) && h !in s.handlers && offset < |s.log| && offset !in s.acked
      modifies this`s
      ensures Inv(s, cfg) && Performs(old(s), s, h, [], cfg)
      ensures duplicate == (old(s).log[offset].event in old(s).processed)
      ensures duplicate ==> h !in s.handlers && s == old(s).(acked := old(s).acked + {offset})
                            && Done(s, old(s).log[offset].event)
      ensures !duplicate ==> h in s.handlers && s.handlers[h] == Handler(offset, old(s).log[offset], Received)
    {
      duplicate := s.log[offset].event in s.processed;
      if duplicate {
        SkipSettles(s, h, offset, cfg);
        s := s.(acked := s.acked + {offset});
      } else {
        DeliverStarts(s, h, offset, cfg);
        s := s.(handlers := s.handlers[h := Handler(offset, s.log[offset], Received)]);
      }
    }

    /** What follows the use case: the mark, the `except` branch where something raised,
        and the broker's acknowledgement. */
    method Settle(h: HandlerId, script: Script, raised: bool)
      returns (acked: bool, ghost usedUp: bool, ghost countAt: State)
      requires Inv(s, cfg) && h in s.handlers && s.handlers[h].phase == if raised then Raising else Finishing
      modifies this`s
      ensures Inv(s, cfg) && EndedAs(old(s), s, h, old(s).handlers[h].msg.event, script, raised, usedUp, countAt, cfg)
      ensures acked == EndsAcked(script, raised, usedUp)
      ensures h !in s.handlers
      ensures acked ==> old(s).handlers[h].offset in s.acked && Done(s, old(s).handlers[h].msg.event)
    {
      usedUp, countAt := false, s;
      if !raised && script.markOk {
        ghost var at := Move(h, MarkProcessed);
        ghost var marked := s;
        Acknowledge(h);
        PerformsThen(old(s), marked, s, h, [MarkProcessed], [Ack], cfg);
        acked := true;
      } else {
        acked, usedUp, countAt := SettleFailed(h, script, raised);
      }
    }

    /** The part of it after something raised, the use case or the mark. */
    method SettleFailed(h: HandlerId, script: Script, raised: bool)
      returns (acked: bool, ghost usedUp: bool, ghost countAt: State)
      requires Inv(s, cfg) && h in s.handlers && s.handlers[h].phase == if raised then Raising else Finishing
      requires raised || !script.markOk
      modifies this`s
      ensures Inv(s, cfg) && EndedAs(old(s), s, h, old(s).handlers[h].msg.event, script, raised, usedUp, countAt, cfg)
      ensures acked == Parks(script, usedUp) && h !in s.handlers
      ensures acked ==> old(s).handlers[h].offset in s.acked && Done(s, old(s).handlers[h].msg.event)
    {
      ghost var e := s.handlers[h].msg.event;
      if raised {
        PerformsNothing(s, h, cfg);
      } else {
        ghost var at := Move(h, MarkRaises);
      }
      ghost var raising := s;
      acked, usedUp, countAt := ParkOrRaise(h, script);
      ghost var parked := s;
      if acked { Acknowledge(h); }
      ParkedEnds(old(s), raising, parked, s, h, e, script, raised, usedUp, countAt, cfg);
    }

    method Acknowledge(h: HandlerId)
      requires Inv(s, cfg) && h in s.handlers && s.handlers[h].phase == Acking
      modifies this`s
      ensures Inv(s, cfg) && Performs(old(s), s, h, [Ack], cfg) && h !in s.handlers
      ensures old(s).handlers[h].offset in s.acked && Done(s, old(s).handlers[h].msg.event)
    {
      ghost var at := Move(h, Ack);
    }

    /** The handler from the duplicate check on. */
    method HandleDelivered(h: HandlerId, offset: nat, script: Script)
      returns (acked: bool, ghost claimed: bool, ghost completed: bool, ghost usedUp: bool,
               ghost claimAt: State, ghost completeAt: State, ghost countAt: State, ghost middle: State)
      requires Inv(s, cfg) && h !in s.handlers && offset < |s.log| && offset !in s.acked
      modifies this`s
      ensures Inv(s, cfg) && h !in s.handlers
      ensures acked ==> offset in s.acked && Done(s, old(s).log[offset].event)
      ensures old(s).log[offset].event in old(s).processed ==> acked && Performs(old(s), s, h, [], cfg)
      ensures old(s).log[offset].event !in old(s).processed ==>
                var raised := ProcessRaises(script, claimed, completed);
                && ProcessedAs(old(s), middle, h, old(s).log[offset], script, claimed, completed, claimAt,
                               completeAt, cfg)
                && EndedAs(middle, s, h, old(s).log[offset].event, script, raised, usedUp, countAt, cfg)
                && acked == EndsAcked(script, raised, usedUp)
      ensures !acked ==> offset < |s.log| && s.log[offset] == old(s).log[offset]
    {
      claimed, completed, usedUp, claimAt, completeAt, countAt, middle := false, false, false, s, s, s, s;
      ghost var msg := s.log[offset];
      var duplicate := Receive(h, offset);
      if duplicate { return true, false, false, false, s, s, s, s; }
      ghost var received := s;
      acked, claimed, completed, usedUp, claimAt, completeAt, countAt, middle := HandleReceived(h, script);
      ProcessedFrom(old(s), received, middle, h, msg, script, claimed, completed, claimAt, completeAt, cfg);
      PerformsOnlyAdds(old(s), received, h, [], cfg);
    }

    /** `handle_insight_event` with the broker's acknowledgement. A duplicate is acknowledged
        at once. Otherwise the use case runs up to `middle` and the rest after it: the moves
        are determined by the script and by what the claim, the completion and the failure
        count found. The message is acknowledged exactly if they say so, and then nothing
        waits on its event any more or it is in the DLQ; an unacknowledged message is still
        on the topic. */
    method HandleInsightEvent(h: HandlerId, offset: nat, script: Script)
      returns (acked: bool, ghost claimed: bool, ghost completed: bool, ghost usedUp: bool,
               ghost claimAt: State, ghost completeAt: State, ghost countAt: State, ghost middle: State)
      requires Inv(s, cfg) && h !in s.handlers && offset < |s.log| && offset !in s.acked
      modifies this`s
      ensures Inv(s, cfg) && h !in s.handlers
      ensures acked ==> offset in s.acked && Done(s, old(s).log[offset].event)
      ensures old(s).log[offset].event in old(s).processed ==> acked && Performs(old(s), s, h, [], cfg)
      ensures old(s).log[offset].event !in old(s).processed ==>
                var raised := ProcessRaises(script, claimed, completed);
                && ProcessedAs(old(s), middle, h, old(s).log[offset], script, claimed, completed, claimAt,
                               completeAt, cfg)
                && EndedAs(middle, s, h, old(s).log[offset].event, script, raised, usedUp, countAt, cfg)
                && acked == EndsAcked(script, raised, usedUp)
      ensures old(s).log[offset].event !in old(s).processed ==>
                var msg := old(s).log[offset];
                var raised := !script.claimStorageOk
                              || (claimed && script.context != NoRows
                                  && !(script.context == Rows && script.answer.Ok?
                                   && script.completeStorageOk && completed));
                && acked == ((!raised && script.markOk)
                             || (script.countOk && usedUp && script.publishOk && script.parkMarkOk))
                && (script.claimStorageOk ==>
                      claimed == (msg.insight in claimAt.insights && claimAt.insights[msg.insight].user == msg.user
                                  && claimAt.insights[msg.insight].status == Queued))
                && (script.claimStorageOk && claimed && script.context == Rows && script.answer.Ok?
                    && script.completeStorageOk ==>
                      completed == (msg.insight in completeAt.insights
                                    && completeAt.insights[msg.insight].user == msg.user
                                    && completeAt.insights[msg.insight].status == Processing
                                    && 1 <= script.answer.value.answer.impactScore <= 10))
                && ((raised || !script.markOk) && script.countOk ==>
                      usedUp == ((if msg.event in countAt.failures then countAt.failures[msg.event] + 1 else 1)
                                 >= cfg.consumerMaxRetries))
      ensures !acked ==> offset < |s.log| && s.log[offset] == old(s).log[offset]
    {
      ghost var at := s.log[offset];
      acked, claimed, completed, usedUp, claimAt, completeAt, countAt, middle := HandleDelivered(h, offset, script);
      AckedInPlain(at, script, claimed, completed, usedUp, claimAt, completeAt, countAt, cfg);
    }

    /** The handler after the duplicate check. */
    method HandleReceived(h: HandlerId, script: Script)
      returns (acked: bool, ghost claimed: bool, ghost completed: bool, ghost usedUp: bool,
               ghost claimAt: State, ghost completeAt: State, ghost countAt: State, ghost middle: State)
      requires Inv(s, cfg) && h in s.handlers && s.handlers[h].phase == Received
      modifies this`s
      ensures Inv(s, cfg) && h !in s.handlers && old(s).log <= s.log
      ensures acked ==> old(s).handlers[h].offset in s.acked && Done(s, old(s).handlers[h].msg.event)
      ensures ProcessedAs(old(s), middle, h, old(s).handlers[h].msg, script, claimed, completed, claimAt,
                          completeAt, cfg)
      ensures var raised := ProcessRaises(script, claimed, completed);
              && EndedAs(middle, s, h, old(s).handlers[h].msg.event, script, raised, usedUp, countAt, cfg)
              && acked == EndsAcked(script, raised, usedUp)
    {
      var raised;
      raised, claimed, completed, claimAt, completeAt := ProcessInsight(h, script);
      middle := s;
      acked, usedUp, countAt := Settle(h, script, raised);
      PerformsOnlyAdds(old(s), middle, h, ProcessMoves(script, claimed, completed), cfg);
      PerformsOnlyAdds(middle, s, h, EndMoves(script, raised, usedUp), cfg);
    }
  }
}
