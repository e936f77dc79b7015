/** The daily run that fires due recurring rules in batches, and the life of one rule over many runs. */
module FireDueRules {
  import opened Collections
  import opened Wrappers

  import opened Calendar
  import opened NextFireDate
  import opened RuleBatches

  datatype RuleStatus = ACTIVE | PAUSED

  datatype Rule = Rule(schedule: Schedule, nextFireDate: Date, endDate: Option<Date>, status: RuleStatus)

  type Rules = map<RuleId, Rule>

  /** A created transaction: its rule and its date. */
  datatype Fired = Fired(rule: RuleId, date: Date)

  // ---------- creation ----------

  datatype ScheduleError = InvalidRecurrenceSchedule(reason: string)

  predicate InRange(n: Option<int>, low: int, high: int) {
    n.Some? && low <= n.value <= high
  }

  function ValidateSchedule(s: Schedule): Result<(), ScheduleError> {
    match s.recurrence
    case Weekly =>
      if InRange(s.dayOfWeek, 0, 6) then Ok(())
      else Err(InvalidRecurrenceSchedule("WEEKLY requires day_of_week in 0-6"))
    case Monthly =>
      if InRange(s.dayOfMonth, 1, 28) then Ok(())
      else Err(InvalidRecurrenceSchedule("MONTHLY requires day_of_month in 1-28"))
    case Yearly =>
      if !InRange(s.dayOfMonth, 1, 28) then Err(InvalidRecurrenceSchedule("YEARLY requires day_of_month in 1-28"))
      else if !InRange(s.month, 1, 12) then Err(InvalidRecurrenceSchedule("YEARLY requires month in 1-12"))
      else Ok(())
    case NoRecurrence => Err(InvalidRecurrenceSchedule("Recurrence.NONE is not valid for RecurringRule"))
  }

  function CreateRule(s: Schedule, start: Date, endDate: Option<Date>): Result<Rule, ScheduleError>
    requires ValidDate(start)
  {
    match ValidateSchedule(s)
    case Err(e) => Err(e)
    case Ok(_) =>
      match ComputeFirst(start, s)
      case Err(e) => Err(InvalidRecurrenceSchedule(e.reason))
      case Ok(first) => Ok(Rule(s, first, endDate, ACTIVE))
  }

  predicate ValidRule(r: Rule) {
    Complete(r.schedule) && OnSchedule(r.nextFireDate, r.schedule)
  }

  /** Creation refuses exactly the schedules outside the validated ranges, and what it
      creates is ACTIVE and stands on the schedule's first date from the start on. */
  lemma {:induction false} CreatedRulesAreOnSchedule(s: Schedule, start: Date, endDate: Option<Date>)
    requires ValidDate(start)
    ensures CreateRule(s, start, endDate).Err? <==> ValidateSchedule(s).Err?
    ensures CreateRule(s, start, endDate).Ok? ==>
              var r := CreateRule(s, start, endDate).value;
              && ValidRule(r) && r.status == ACTIVE && r.schedule == s && r.endDate == endDate
              && IsFirstFrom(r.nextFireDate, start, s)
  {
    FirstIsLeast(start, s);
  }

  /** Which schedules are accepted, in plain ranges, and where the rule then stands. */
  lemma {:induction false} AcceptedSchedules(s: Schedule, start: Date, endDate: Option<Date>)
    requires ValidDate(start)
    ensures CreateRule(s, start, endDate).Ok? <==>
              || (s.recurrence == Weekly && s.dayOfWeek.Some? && 0 <= s.dayOfWeek.value <= 6)
              || (s.recurrence == Monthly && s.dayOfMonth.Some? && 1 <= s.dayOfMonth.value <= 28)
              || (s.recurrence == Yearly && s.dayOfMonth.Some? && 1 <= s.dayOfMonth.value <= 28
                  && s.month.Some? && 1 <= s.month.value <= 12)
    ensures CreateRule(s, start, endDate).Ok? ==>
              var r := CreateRule(s, start, endDate).value;
              && ValidRule(r) && r.status == ACTIVE && r.schedule == s && r.endDate == endDate
              && DayNumber(start) <= DayNumber(r.nextFireDate)
              && forall x :: OnSchedule(x, s) && DayNumber(start) <= DayNumber(x) ==>
                   DayNumber(r.nextFireDate) <= DayNumber(x)
  {
    CreatedRulesAreOnSchedule(s, start, endDate);
    if CreateRule(s, start, endDate).Ok? {
      var first := CreateRule(s, start, endDate).value.nextFireDate;
      OrderIsDayOrder(start, first);
      forall x | OnSchedule(x, s) && DayNumber(start) <= DayNumber(x) ensures DayNumber(first) <= DayNumber(x) {
        OrderIsDayOrder(start, x);
        OrderIsDayOrder(first, x);
      }
    }
  }

  // ---------- one rule ----------

  predicate Due(r: Rule, today: Date) {
    r.status == ACTIVE && NotAfter(r.nextFireDate, today)
  }

  function AfterFiring(r: Rule, today: Date): Rule
    requires ValidRule(r) && ValidDate(today)
  {
    AdvanceMovesOn(r.nextFireDate, r.schedule);
    var next := SkipPast(Advance(r.nextFireDate, r.schedule).value, r.schedule, today);
    r.(nextFireDate := next,
       status := if r.endDate.Some? && Before(r.endDate.value, next) then PAUSED else r.status)
  }

  /** A fired rule keeps its schedule and stands on the schedule's first date after
      today; it is paused exactly when that date lies past its end. */
  lemma {:induction false} FiredStandsTomorrow(r: Rule, today: Date)
    requires ValidRule(r) && ValidDate(today) && Due(r, today)
    ensures var r' := AfterFiring(r, today);
            && ValidRule(r') && r'.schedule == r.schedule && r'.endDate == r.endDate
            && IsFirstFrom(r'.nextFireDate, AddDays(today, 1), r.schedule)
            && Before(today, r'.nextFireDate) && !Due(r', today)
            && (r'.status == PAUSED <==> r.endDate.Some? && Before(r.endDate.value, r'.nextFireDate))
  {
    CatchUpIsFirstFromTomorrow(r.nextFireDate, r.schedule, today);
    FirstIsLeast(AddDays(today, 1), r.schedule);
    var next := AfterFiring(r, today).nextFireDate;
    AfterIsFromNextDay(today, next);
    OrderIsDayOrder(today, next);
    OrderIsDayOrder(next, today);
  }

  /** A fired rule in day numbers: it stands on the earliest scheduled day after today, and is
      paused exactly if that day is past its end. */
  lemma {:induction false} FiredInDayNumbers(r: Rule, today: Date)
    requires ValidRule(r) && ValidDate(today) && r.status == ACTIVE && DayNumber(r.nextFireDate) <= DayNumber(today)
    ensures var r' := AfterFiring(r, today);
            && ValidRule(r') && r'.schedule == r.schedule && r'.endDate == r.endDate
            && DayNumber(today) < DayNumber(r'.nextFireDate)
            && (forall x :: OnSchedule(x, r.schedule) && DayNumber(today) < DayNumber(x) ==>
                  DayNumber(r'.nextFireDate) <= DayNumber(x))
            && (r.endDate.Some? && ValidDate(r.endDate.value) ==>
                  (r'.status == PAUSED <==> DayNumber(r.endDate.value) < DayNumber(r'.nextFireDate)))
            && (r'.status == ACTIVE || (r'.status == PAUSED && r.endDate.Some?))
  {
    OrderIsDayOrder(r.nextFireDate, today);
    FiredStandsTomorrow(r, today);
    var next := AfterFiring(r, today).nextFireDate;
    OrderIsDayOrder(today, next);
    if r.endDate.Some? && ValidDate(r.endDate.value) {
      OrderIsDayOrder(r.endDate.value, next);
    }
    forall x | OnSchedule(x, r.schedule) && DayNumber(today) < DayNumber(x)
      ensures DayNumber(next) <= DayNumber(x)
    {
      OrderIsDayOrder(AddDays(today, 1), x);
      OrderIsDayOrder(next, x);
    }
  }

  // ---------- one run ----------

  function DueSet(rules: Rules, today: Date): set<RuleId> {
    set id | id in rules && Due(rules[id], today)
  }

  ghost predicate AllValid(rules: Rules) {
    forall id :: id in rules ==> ValidRule(rules[id])
  }

  /** The rules after exactly those of `fired` were fired. */
  ghost predicate FiredExactly(t: Rules, rules: Rules, fired: set<RuleId>, today: Date)
    requires AllValid(t) && ValidDate(today)
  {
    && rules.Keys == t.Keys
    && fired <= DueSet(t, today)
    && forall id :: id in t ==> rules[id] == if id in fired then AfterFiring(t[id], today) else t[id]
  }

  /** The transactions of a run: one per fired rule, dated when it was due. */
  ghost predicate OnePerRule(t: Rules, txs: seq<Fired>, fired: set<RuleId>) {
    && (forall i :: 0 <= i < |txs| ==>
          txs[i].rule in fired && txs[i].rule in t && txs[i].date == t[txs[i].rule].nextFireDate)
    && (forall i, j :: 0 <= i < j < |txs| ==> txs[i].rule != txs[j].rule)
    && (forall id :: id in fired ==> exists i :: 0 <= i < |txs| && txs[i].rule == id)
  }

  /** The due rules in day numbers. */
  lemma {:induction false} DueInDayNumbers(t: Rules, today: Date)
    requires AllValid(t) && ValidDate(today)
    ensures DueSet(t, today)
         == set id | id in t && t[id].status == ACTIVE && DayNumber(t[id].nextFireDate) <= DayNumber(today)
  {
    forall id | id in t ensures Due(t[id], today) <==>
        t[id].status == ACTIVE && DayNumber(t[id].nextFireDate) <= DayNumber(today)
    {
      OrderIsDayOrder(t[id].nextFireDate, today);
    }
  }

  lemma {:induction false} FiredAreNotDue(t: Rules, rules: Rules, fired: set<RuleId>, today: Date)
    requires AllValid(t) && ValidDate(today) && FiredExactly(t, rules, fired, today)
    ensures AllValid(rules)
    ensures DueSet(rules, today) == DueSet(t, today) - fired
  {
    forall id | id in t
      ensures ValidRule(rules[id])
      ensures id in DueSet(rules, today) <==> id in DueSet(t, today) && id !in fired
    {
      if id in fired { FiredStandsTomorrow(t[id], today); }
    }
  }

  /** The second half of `_fire`: move the rule past today and pause it past its end. */
  method MovePast(r: Rule, today: Date) returns (r': Rule)
    requires ValidRule(r) && ValidDate(today)
    ensures r' == AfterFiring(r, today)
  {
    var next := CatchUp(r.nextFireDate, r.schedule, today);
    r' := r.(nextFireDate := next);
    if r'.endDate.Some? && Before(r'.endDate.value, r'.nextFireDate) {
      r' := r'.(status := PAUSED);
    }
  }

  /** The batch without the rules that already failed. */
  function Without(batch: seq<RuleId>, failed: set<RuleId>): (pending: seq<RuleId>)
    ensures Ids(pending) == Ids(batch) - failed
    ensures DistinctIds(batch) ==> DistinctIds(pending)
  {
    if batch == [] then []
    else
      var rest := Without(batch[1..], failed);
      assert Ids(batch) == Ids(batch[1..]) + {batch[0]};
      assert batch[0] in Ids(rest) ==> batch[0] in Ids(batch[1..]);
      if batch[0] in failed then rest
      else
        assert Ids([batch[0]] + rest) == {batch[0]} + Ids(rest);
        [batch[0]] + rest
  }

  /** One more of the pending rules. */
  lemma {:induction false} NextPending(pending: seq<RuleId>, n: nat, fired: set<RuleId>, failed: set<RuleId>,
      raising: set<RuleId>)
    requires DistinctIds(pending) && n < |pending| && Ids(pending) !! fired
    ensures var id, before, after := pending[n], Ids(pending[..n]), Ids(pending[..n + 1]);
            && id in Ids(pending) && id !in fired + (before - raising)
            && fired + (after - raising) == fired + (before - raising) + (if id in raising then {} else {id})
            && failed + (after * raising) == failed + (before * raising) + (if id in raising then {id} else {})
  {
    assert Ids(pending[..n + 1]) == Ids(pending[..n]) + {pending[n]};
  }

  /** What a run has done so far: the rules t are now `rules`, with transactions txs
      for the fired ones; failed rules are among the raising ones, fired ones are not. */
  ghost predicate Progress(t: Rules, rules: Rules, txs: seq<Fired>, fired: set<RuleId>, failed: set<RuleId>,
                           raising: set<RuleId>, today: Date)
    requires AllValid(t) && ValidDate(today)
  {
    && FiredExactly(t, rules, fired, today)
    && OnePerRule(t, txs, fired)
    && fired !! raising && failed <= raising && failed <= DueSet(t, today)
  }

  lemma {:induction false} FireMakesProgress(t: Rules, rules: Rules, txs: seq<Fired>, fired: set<RuleId>,
      failed: set<RuleId>, raising: set<RuleId>, today: Date, id: RuleId)
    requires AllValid(t) && ValidDate(today) && Progress(t, rules, txs, fired, failed, raising, today)
    requires id in DueSet(t, today) && id !in fired && id !in raising
    ensures rules[id] == t[id]
    ensures Progress(t, rules[id := AfterFiring(t[id], today)], txs + [Fired(id, t[id].nextFireDate)],
                     fired + {id}, failed, raising, today)
  {
    var txs' := txs + [Fired(id, t[id].nextFireDate)];
    forall x | x in fired + {id} ensures exists i :: 0 <= i < |txs'| && txs'[i].rule == x {
      if x in fired {
        var i :| 0 <= i < |txs| && txs[i].rule == x;
        assert txs'[i].rule == x;
      } else {
        assert txs'[|txs|].rule == x;
      }
    }
  }

  /** What a batch adds to the fired and to the failed rules. */
  lemma {:induction false} SplitByRaising(tried: set<RuleId>, pending: set<RuleId>, batch: set<RuleId>,
      raising: set<RuleId>)
    requires pending == batch - tried * raising
    ensures (tried - raising) + (pending - raising) == (tried + batch) - raising
    ensures tried * raising + pending * raising == (tried + batch) * raising
  {
  }

  /** Nothing of the batch is left when the failed rules are, exactly if all of it was tried. */
  lemma {:induction false} NothingPendingIff(batch: seq<RuleId>, tried: set<RuleId>, due: set<RuleId>,
      raising: set<RuleId>)
    requires FetchedAfter(batch, tried, due, raising)
    ensures Without(batch, tried * raising) == [] <==> Ids(batch) <= tried
    ensures Ids(Without(batch, tried * raising)) <= due - (tried - raising) - tried * raising
  {
    var pending := Without(batch, tried * raising);
    if pending != [] {
      assert pending[0] in Ids(pending);
    } else {
      forall id | id in Ids(batch) ensures id in tried {
        assert id !in Ids(batch) - tried * raising;
      }
    }
  }

  /** What these batches of a run have done. */
  ghost predicate Ran(t: Rules, rules: Rules, txs: seq<Fired>, failed: set<RuleId>, raising: set<RuleId>, today: Date,
                      batches: seq<seq<RuleId>>)
    requires AllValid(t) && ValidDate(today)
  {
    failed == Tried(batches) * raising && Progress(t, rules, txs, Tried(batches) - raising, failed, raising, today)
  }

  lemma {:induction false} NothingRun(t: Rules, raising: set<RuleId>, today: Date) returns (batches: seq<seq<RuleId>>)
    requires AllValid(t) && ValidDate(today)
    ensures batches == [] && Ran(t, t, [], {}, raising, today, batches) && Works(DueSet(t, today), raising, batches)
  {
    batches := [];
  }

  /** One more batch continues the run, or ends it if nothing of it is new. */
  lemma {:induction false} BatchCounts(due: set<RuleId>, raising: set<RuleId>, batches: seq<seq<RuleId>>,
      batch: seq<RuleId>)
    requires Works(due, raising, batches) && |batches| < MAX_BATCHES
    requires FetchedAfter(batch, Tried(batches), due, raising)
    ensures if Ids(batch) <= Tried(batches) then IsRun(due, raising, batches + [batch], false)
            else Works(due, raising, batches + [batch])
  {
    if Ids(batch) <= Tried(batches) {
      StopsWith(due, raising, batches, batch);
    } else {
      WorksOn(due, raising, batches, batch);
    }
  }

  /** What a run did, in day numbers. */
  lemma {:induction false} RunInDayNumbers(t: Rules, rules: Rules, fired: set<RuleId>, failed: set<RuleId>, today: Date)
    requires AllValid(t) && AllValid(rules) && ValidDate(today) && FiredExactly(t, rules, fired, today)
    ensures DueSet(t, today)
         == set id | id in t && t[id].status == ACTIVE && DayNumber(t[id].nextFireDate) <= DayNumber(today)
    ensures forall id :: id in fired ==>
              && id in t && t[id].status == ACTIVE && DayNumber(t[id].nextFireDate) <= DayNumber(today)
              && rules[id].schedule == t[id].schedule && rules[id].endDate == t[id].endDate
              && DayNumber(today) < DayNumber(rules[id].nextFireDate)
    ensures DueSet(rules, today) == failed ==>
              forall id :: id in rules && rules[id].status == ACTIVE && id !in failed ==>
                DayNumber(rules[id].nextFireDate) > DayNumber(today)
  {
    DueInDayNumbers(t, today);
    DueInDayNumbers(rules, today);
    forall id | id in fired
      ensures rules[id].schedule == t[id].schedule && rules[id].endDate == t[id].endDate
      ensures DayNumber(today) < DayNumber(rules[id].nextFireDate)
    {
      FiredInDayNumbers(t[id], today);
    }
  }

  class Runner {
    var rules: Rules
    var transactions: seq<Fired>

    /** Up to `limit` of the due active rules, in the database's order. */
    method FetchDue(today: Date, limit: nat) returns (batch: seq<RuleId>)
      ensures DistinctIds(batch) && |batch| <= limit
      ensures forall id :: id in batch ==>
                id in rules && rules[id].status == ACTIVE && NotAfter(rules[id].nextFireDate, today)
      ensures |batch| < limit ==>
                forall id :: id in rules && rules[id].status == ACTIVE && NotAfter(rules[id].nextFireDate, today) ==>
                  id in batch
      ensures Fetched(batch, DueSet(rules, today), limit)
    {
      batch := [];
      var left := DueSet(rules, today);
      while left != {} && |batch| < limit
        invariant DistinctIds(batch) && |batch| <= limit
        invariant Ids(batch) + left == DueSet(rules, today) && Ids(batch) !! left
      {
        var id :| id in left;
        assert Ids(batch + [id]) == Ids(batch) + {id};
        batch, left := batch + [id], left - {id};
      }
      assert forall id :: id in batch <==> id in Ids(batch);
    }

    /** `_fire`: create the transaction; if that raises the rule is left as it was,
        otherwise it is moved past today, paused past its end, and saved. */
    method Fire(id: RuleId, today: Date, raises: bool) returns (ok: bool)
      requires id in rules && ValidRule(rules[id]) && ValidDate(today) && Due(rules[id], today)
      modifies this
      ensures ok == !raises
      ensures !ok ==> rules == old(rules) && transactions == old(transactions)
      ensures ok ==>
                && rules == old(rules)[id := AfterFiring(old(rules)[id], today)]
                && transactions == old(transactions) + [Fired(id, old(rules)[id].nextFireDate)]
    {
      if raises { return false; }
      var rule := rules[id];
      transactions := transactions + [Fired(id, rule.nextFireDate)];
      rule := MovePast(rule, today);
      rules := rules[id := rule];
      return true;
    }

    /** The inner loop over the pending rules of one batch. */
    method FireBatch(pending: seq<RuleId>, today: Date, raising: set<RuleId>, failed: set<RuleId>,
                     ghost t: Rules, ghost base: seq<Fired>, ghost txs: seq<Fired>, ghost fired: set<RuleId>)
      returns (failed': set<RuleId>, ghost txs': seq<Fired>, ghost fired': set<RuleId>)
      requires AllValid(t) && ValidDate(today) && Progress(t, rules, txs, fired, failed, raising, today)
      requires transactions == base + txs
      requires DistinctIds(pending) && Ids(pending) <= DueSet(t, today) - fired - failed
      modifies this
      ensures Progress(t, rules, txs', fired', failed', raising, today)
      ensures transactions == base + txs'
      ensures fired' == fired + (Ids(pending) - raising) && failed' == failed + (Ids(pending) * raising)
    {
      failed', txs', fired' := failed, txs, fired;
      TakeAll(pending);
      for n := 0 to |pending|
        invariant Progress(t, rules, txs', fired', failed', raising, today) && transactions == base + txs'
        invariant fired' == fired + (Ids(pending[..n]) - raising)
        invariant failed' == failed + (Ids(pending[..n]) * raising)
      {
        var id := pending[n];
        NextPending(pending, n, fired, failed, raising);
        if id !in raising {
          FireMakesProgress(t, rules, txs', fired', failed', raising, today, id);
        }
        var ok := Fire(id, today, id in raising);
        if ok {
          txs', fired' := txs' + [Fired(id, t[id].nextFireDate)], fired' + {id};
        } else {
          failed' := failed' + {id};
        }
      }
    }

    /** One pass of the outer loop after the rules of `tried` were tried: fetch, leave out
        the failed, fire the rest; drained if nothing of the batch is new. */
    method RunBatch(today: Date, raising: set<RuleId>, failed: set<RuleId>,
                    ghost t: Rules, ghost base: seq<Fired>, ghost txs: seq<Fired>, ghost tried: set<RuleId>)
      returns (drained: bool, failed': set<RuleId>, ghost txs': seq<Fired>, ghost batch: seq<RuleId>)
      requires AllValid(t) && ValidDate(today) && transactions == base + txs && failed == tried * raising
      requires Progress(t, rules, txs, tried - raising, failed, raising, today)
      modifies this
      ensures FetchedAfter(batch, tried, DueSet(t, today), raising)
      ensures drained <==> Ids(batch) <= tried
      ensures failed' == (tried + Ids(batch)) * raising && transactions == base + txs'
      ensures Progress(t, rules, txs', (tried + Ids(batch)) - raising, failed', raising, today)
    {
      ghost var due := DueSet(t, today);
      FiredAreNotDue(t, rules, tried - raising, today);
      var fetched := FetchDue(today, BATCH);
      var pending := Without(fetched, failed);
      batch := fetched;
      NothingPendingIff(batch, tried, due, raising);
      drained, failed', txs' := fetched == [] || pending == [], failed, txs;
      if drained {
        assert tried + Ids(batch) == tried;
      } else {
        ghost var fired';
        failed', txs', fired' := FireBatch(pending, today, raising, failed, t, base, txs, tried - raising);
        SplitByRaising(tried, Ids(pending), Ids(batch), raising);
      }
    }

    /** The same pass, as the next batch of the run. */
    method NextBatch(today: Date, raising: set<RuleId>, failed: set<RuleId>,
                     ghost t: Rules, ghost base: seq<Fired>, ghost txs: seq<Fired>, ghost batches: seq<seq<RuleId>>)
      returns (drained: bool, failed': set<RuleId>, ghost txs': seq<Fired>, ghost batches': seq<seq<RuleId>>)
      requires AllValid(t) && ValidDate(today) && transactions == base + txs && |batches| < MAX_BATCHES
      requires Ran(t, rules, txs, failed, raising, today, batches) && Works(DueSet(t, today), raising, batches)
      modifies this
      ensures transactions == base + txs' && Ran(t, rules, txs', failed', raising, today, batches')
      ensures drained ==> IsRun(DueSet(t, today), raising, batches', false)
      ensures !drained ==> Works(DueSet(t, today), raising, batches') && |batches'| == |batches| + 1
    {
      ghost var batch;
      drained, failed', txs', batch := RunBatch(today, raising, failed, t, base, txs, Tried(batches));
      batches' := batches + [batch];
      OneMoreBatch(batches, batch);
      BatchCounts(DueSet(t, today), raising, batches, batch);
    }

    /** The outer loop, up to the cap. */
    method Drain(today: Date, raising: set<RuleId>)
      returns (failed: set<RuleId>, drained: bool, ghost txs: seq<Fired>, ghost batches: seq<seq<RuleId>>)
      requires AllValid(rules) && ValidDate(today)
      modifies this
      ensures IsRun(DueSet(old(rules), today), raising, batches, !drained)
      ensures transactions == old(transactions) + txs
      ensures Ran(old(rules), rules, txs, failed, raising, today, batches)
    {
      ghost var t, base := rules, transactions;
      batches := NothingRun(t, raising, today);
      failed, drained, txs := {}, false, [];
      for batchNum := 0 to MAX_BATCHES
        invariant !drained && |batches| == batchNum && Works(DueSet(t, today), raising, batches)
        invariant transactions == base + txs && Ran(t, rules, txs, failed, raising, today, batches)
      {
        drained, failed, txs, batches := NextBatch(today, raising, failed, t, base, txs, batches);
        if drained { return; }
      }
    }

    /** The run with its batches. */
    method Work(today: Date, raising: set<RuleId>)
      returns (failed: set<RuleId>, capReached: bool, ghost txs: seq<Fired>, ghost fired: set<RuleId>,
               ghost batches: seq<seq<RuleId>>)
      requires AllValid(rules) && ValidDate(today)
      modifies this
      ensures AllValid(old(rules)) && Progress(old(rules), rules, txs, fired, failed, raising, today)
      ensures transactions == old(transactions) + txs
      ensures AllValid(rules) && DueSet(rules, today) == DueSet(old(rules), today) - fired
      ensures IsRun(DueSet(old(rules), today), raising, batches, capReached)
      ensures fired == Tried(batches) - raising && failed == Tried(batches) * raising
      ensures !capReached && |failed| < BATCH ==>
                && DueSet(rules, today) == failed
                && failed == DueSet(old(rules), today) * raising
                && fired == DueSet(old(rules), today) - raising
      ensures AllAreTried(|DueSet(old(rules), today)|, |DueSet(old(rules), today) * raising|) ==>
                && DueSet(rules, today) == failed
                && failed == DueSet(old(rules), today) * raising
                && fired == DueSet(old(rules), today) - raising
      ensures CapIsFar(|DueSet(old(rules), today)|, |DueSet(old(rules), today) * raising|) ==> !capReached
    {
      ghost var t, due := rules, DueSet(rules, today);
      var drained;
      failed, drained, txs, batches := Drain(today, raising);
      fired := Tried(batches) - raising;
      FiredAreNotDue(t, rules, fired, today);
      capReached := !drained;
      RunDoes(due, raising, batches, capReached);
      AllTried(due, Tried(batches), raising);
    }
    /** One daily run, as the batches it fetched. Safety always: each fired rule was due,
        fires once, and moves past today; failed and untouched rules stay as they were. With
        fewer than a batch of failures and the cap not reached, everything due was tried:
        only the failed rules are still due. Whether everything will be tried, and whether the
        cap can be reached, is decided beforehand by how many rules are due and will raise. */
    method Run(today: Date, raising: set<RuleId>)
      returns (failed: set<RuleId>, capReached: bool, ghost txs: seq<Fired>, ghost fired: set<RuleId>,
               ghost batches: seq<seq<RuleId>>, ghost due: set<RuleId>)
      requires AllValid(rules) && ValidDate(today)
      modifies this
      ensures AllValid(old(rules)) && Progress(old(rules), rules, txs, fired, failed, raising, today)
      ensures transactions == old(transactions) + txs
      ensures AllValid(rules) && DueSet(rules, today) == DueSet(old(rules), today) - fired
      ensures forall id :: id in fired ==>
                && id in old(rules) && old(rules)[id].status == ACTIVE && id !in raising
                && DayNumber(old(rules)[id].nextFireDate) <= DayNumber(today)
                && rules[id].schedule == old(rules)[id].schedule && rules[id].endDate == old(rules)[id].endDate
                && DayNumber(today) < DayNumber(rules[id].nextFireDate)
      ensures forall id :: id in old(rules) && id !in fired ==> rules[id] == old(rules)[id]
      ensures forall k :: 0 <= k < |txs| ==>
                txs[k].rule in fired && txs[k].date == old(rules)[txs[k].rule].nextFireDate
      ensures forall j, k :: 0 <= j < k < |txs| ==> txs[j].rule != txs[k].rule
      ensures forall id :: id in fired ==> exists k :: 0 <= k < |txs| && txs[k].rule == id
      ensures due == set id | id in old(rules) && old(rules)[id].status == ACTIVE
                              && DayNumber(old(rules)[id].nextFireDate) <= DayNumber(today)
      ensures (!capReached && |failed| < 50)
              || |due| <= 50 || (|due * raising| < 50 && |due| <= 50 + 99 * (50 - |due * raising|)) ==>
                && failed == due * raising && fired == due - raising
                && forall id :: id in rules && rules[id].status == ACTIVE && id !in failed ==>
                     DayNumber(rules[id].nextFireDate) > DayNumber(today)
      ensures |due| <= 50 + 98 * (if |due * raising| < 50 then 50 - |due * raising| else 1) ==> !capReached
      ensures IsRun(DueSet(old(rules), today), raising, batches, capReached)
      ensures fired == Tried(batches) - raising && failed == Tried(batches) * raising
      ensures !capReached && |failed| < BATCH ==>
                && DueSet(rules, today) == failed
                && failed == DueSet(old(rules), today) * raising
                && fired == DueSet(old(rules), today) - raising
      ensures AllAreTried(|DueSet(old(rules), today)|, |DueSet(old(rules), today) * raising|) ==>
                && DueSet(rules, today) == failed
                && failed == DueSet(old(rules), today) * raising
                && fired == DueSet(old(rules), today) - raising
      ensures CapIsFar(|DueSet(old(rules), today)|, |DueSet(old(rules), today) * raising|) ==> !capReached
    {
      ghost var t := rules;
      due := DueSet(rules, today);
      failed, capReached, txs, fired, batches := Work(today, raising);
      RunInDayNumbers(t, rules, fired, failed, today);
      InFigures(|due|, |due * raising|);
    }
  }

  /** What the figures say about a run. */
  lemma {:induction false} RunDoes(due: set<RuleId>, raising: set<RuleId>, batches: seq<seq<RuleId>>, capReached: bool)
    requires IsRun(due, raising, batches, capReached)
    ensures !capReached && |Tried(batches) * raising| < BATCH ==> Tried(batches) == due
    ensures AllAreTried(|due|, |due * raising|) ==> Tried(batches) == due
    ensures CapIsFar(|due|, |due * raising|) ==> !capReached
  {
    if AllAreTried(|due|, |due * raising|) {
      RunTriesAll(due, raising, batches, capReached);
    }
    if capReached {
      CapIsNotReached(due, raising, batches);
    } else {
      StoppedRun(due, raising, batches);
    }
  }

  lemma {:induction false} AllTried(due: set<RuleId>, tried: set<RuleId>, raising: set<RuleId>)
    ensures tried == due ==> due - (tried - raising) == tried * raising == due * raising
  {
  }

  // ---------- one rule over many runs ----------

  /** One day's run as one rule sees it. */
  datatype RunDay = RunDay(today: Date, raises: bool)

  /** The rule after that day's run. */
  function DayAfter(r: Rule, day: RunDay): Rule
    requires ValidRule(r) && ValidDate(day.today)
  {
    if Fires(r, day) then AfterFiring(r, day.today) else r
  }

  /** The transactions of a rule over a sequence of runs, each with its run's day. */
  function History(r: Rule, days: seq<RunDay>): seq<(Date, Date)>
    requires ValidRule(r) && forall d :: d in days ==> ValidDate(d.today)
    decreases |days|
  {
    if days == [] then []
    else
      DayKeepsValid(r, days[0]);
      (if Fires(r, days[0]) then [(r.nextFireDate, days[0].today)] else []) + History(DayAfter(r, days[0]), days[1..])
  }

  predicate Fires(r: Rule, day: RunDay) {
    Due(r, day.today) && !day.raises
  }

  lemma {:induction false} DayKeepsValid(r: Rule, day: RunDay)
    requires ValidRule(r) && ValidDate(day.today)
    ensures ValidRule(DayAfter(r, day))
  {
    if Fires(r, day) {
      FiredStandsTomorrow(r, day.today);
    }
  }

  /** An active rule stands no later than its end. */
  predicate WithinEnd(r: Rule) {
    r.status == ACTIVE && r.endDate.Some? ==> NotAfter(r.nextFireDate, r.endDate.value)
  }

  predicate InOrder(h: seq<(Date, Date)>, from: Date) {
    && (forall i :: 0 <= i < |h| ==> NotAfter(from, h[i].0))
    && (forall i, j :: 0 <= i < j < |h| ==> Before(h[i].0, h[j].0))
  }

  /** Over any runs whatever, a rule's transactions have strictly increasing scheduled
      dates, each at most the day of its run and at most the rule's end. */
  lemma {:induction false} HistoryIsSound(r: Rule, days: seq<RunDay>)
    requires ValidRule(r) && WithinEnd(r) && forall d :: d in days ==> ValidDate(d.today)
    ensures InOrder(History(r, days), r.nextFireDate)
    ensures forall h :: h in History(r, days) ==>
              && OnSchedule(h.0, r.schedule) && NotAfter(h.0, h.1)
              && (r.endDate.Some? ==> NotAfter(h.0, r.endDate.value))
    decreases |days|
  {
    if days != [] {
      var day := days[0];
      if Fires(r, day) {
        var r' := AfterFiring(r, day.today);
        FiredStandsTomorrow(r, day.today);
        assert WithinEnd(r') by {
          if r.endDate.Some? { NotAfterOrBefore(r'.nextFireDate, r.endDate.value); }
        }
        HistoryIsSound(r', days[1..]);
        BeforeChain(r.nextFireDate, day.today, r'.nextFireDate);
        PrependInOrder(History(r', days[1..]), r.nextFireDate, day.today, r'.nextFireDate);
      } else {
        HistoryIsSound(r, days[1..]);
      }
    }
  }

  lemma {:induction false} BeforeChain(a: Date, b: Date, c: Date)
    requires NotAfter(a, b) && Before(b, c)
    ensures Before(a, c)
  {
  }

  lemma {:induction false} PrependInOrder(h: seq<(Date, Date)>, a: Date, day: Date, b: Date)
    requires InOrder(h, b) && Before(a, b)
    ensures InOrder([(a, day)] + h, a)
  {
    forall i | 0 <= i < |h| ensures Before(a, h[i].0) {
      assert NotAfter(b, h[i].0);
    }
  }

  /** The end date is kept in every future exactly when the rule does not already stand
      past it: creation does not check this, and one run on the first date shows it. */
  lemma {:induction false} EndDateKeptIff(r: Rule)
    requires ValidRule(r) && r.endDate.Some?
    ensures (forall days: seq<RunDay>, h :: (forall d :: d in days ==> ValidDate(d.today)) && h in History(r, days)
                             ==> NotAfter(h.0, r.endDate.value))
            <==> WithinEnd(r)
  {
    if WithinEnd(r) {
      forall days: seq<RunDay>, h | (forall d :: d in days ==> ValidDate(d.today)) && h in History(r, days)
        ensures NotAfter(h.0, r.endDate.value)
      {
        HistoryIsSound(r, days);
      }
    } else {
      var days := [RunDay(r.nextFireDate, false)];
      assert History(r, days)[0] == (r.nextFireDate, r.nextFireDate);
      assert (r.nextFireDate, r.nextFireDate) in History(r, days);
    }
  }

  /** From the arguments of creation: the created rule's end is kept in every future
      exactly when the schedule's first date from the start on is not past it. */
  lemma {:induction false} CreatedEndDateKeptIff(s: Schedule, start: Date, end: Date)
    requires ValidDate(start) && CreateRule(s, start, Some(end)).Ok?
    ensures ComputeFirst(start, s).Ok? && ValidRule(CreateRule(s, start, Some(end)).value)
    ensures (forall days: seq<RunDay>, h :: (forall d :: d in days ==> ValidDate(d.today))
                                          && h in History(CreateRule(s, start, Some(end)).value, days)
                             ==> NotAfter(h.0, end))
            <==> NotAfter(ComputeFirst(start, s).value, end)
  {
    CreatedRulesAreOnSchedule(s, start, Some(end));
    EndDateKeptIff(CreateRule(s, start, Some(end)).value);
  }

  /** Creation does accept such arguments: on the 20th of every month, from 10 January
      2025 until 15 January 2025. */
  lemma {:induction false} CreationAcceptsEndBeforeFirst()
    ensures var s := Schedule(Monthly, Some(20), None, None);
            var start, end := Date(2025, 1, 10), Date(2025, 1, 15);
            ValidDate(start) && CreateRule(s, start, Some(end)).Ok? && Before(end, ComputeFirst(start, s).value)
  {
  }

  // ---------- many rules over many runs ----------

  /** The dates of one rule's transactions among those of all rules. */
  function DatesOf(txs: seq<Fired>, id: RuleId): seq<Date> {
    if txs == [] then []
    else
      var last := txs[|txs| - 1];
      DatesOf(txs[..|txs| - 1], id) + (if last.rule == id then [last.date] else [])
  }

  function RuleAfter(r: Rule, days: seq<RunDay>): (r': Rule)
    requires ValidRule(r) && forall d :: d in days ==> ValidDate(d.today)
    ensures ValidRule(r')
    decreases |days|
  {
    if days == [] then r
    else
      DayKeepsValid(r, days[0]);
      RuleAfter(DayAfter(r, days[0]), days[1..])
  }

  function Dates(h: seq<(Date, Date)>): seq<Date> {
    seq(|h|, i requires 0 <= i < |h| => h[i].0)
  }

  /** What one rule sees of a run in which exactly `fired` were fired. */
  lemma {:induction false} RunIsOneDay(t: Rules, rules: Rules, txs: seq<Fired>, fired: set<RuleId>, today: Date,
      id: RuleId)
    requires AllValid(t) && ValidDate(today) && id in t
    requires FiredExactly(t, rules, fired, today) && OnePerRule(t, txs, fired)
    ensures rules[id] == DayAfter(t[id], RunDay(today, id !in fired))
    ensures DatesOf(txs, id) == if id in fired then [t[id].nextFireDate] else []
    ensures id in fired <==> Fires(t[id], RunDay(today, id !in fired))
  {
    DatesOfMissing(txs, id);
    if id in fired {
      var i :| 0 <= i < |txs| && txs[i].rule == id;
      DatesOfOnce(txs, id, i);
    }
  }

  lemma {:induction false} DatesOfMissing(txs: seq<Fired>, id: RuleId)
    ensures (forall i :: 0 <= i < |txs| ==> txs[i].rule != id) ==> DatesOf(txs, id) == []
  {
    if txs != [] {
      DatesOfMissing(txs[..|txs| - 1], id);
    }
  }

  lemma {:induction false} DatesOfOnce(txs: seq<Fired>, id: RuleId, i: nat)
    requires i < |txs| && txs[i].rule == id
    requires forall j :: 0 <= j < |txs| && j != i ==> txs[j].rule != id
    ensures DatesOf(txs, id) == [txs[i].date]
  {
    var n := |txs| - 1;
    if i == n {
      DatesOfMissing(txs[..n], id);
    } else {
      DatesOfOnce(txs[..n], id, i);
    }
  }

  lemma {:induction false} DatesOfAppend(a: seq<Fired>, b: seq<Fired>, id: RuleId)
    ensures DatesOf(a + b, id) == DatesOf(a, id) + DatesOf(b, id)
  {
    if b == [] {
      assert a + b == a;
    } else {
      assert (a + b)[..|a + b| - 1] == a + b[..|b| - 1];
      DatesOfAppend(a, b[..|b| - 1], id);
    }
  }

  lemma {:induction false} DatesAppend(a: seq<(Date, Date)>, b: seq<(Date, Date)>)
    ensures Dates(a + b) == Dates(a) + Dates(b)
  {
  }

  lemma {:induction false} OneMoreDay(r: Rule, days: seq<RunDay>, day: RunDay)
    requires ValidRule(r) && ValidDate(day.today) && forall d :: d in days ==> ValidDate(d.today)
    ensures RuleAfter(r, days + [day]) == DayAfter(RuleAfter(r, days), day)
    ensures Dates(History(r, days + [day]))
         == Dates(History(r, days)) + if Fires(RuleAfter(r, days), day) then [RuleAfter(r, days).nextFireDate] else []
    decreases |days|
  {
    if days == [] {
      DayKeepsValid(r, day);
      assert (days + [day])[1..] == [];
    } else {
      var first := if Fires(r, days[0]) then [(r.nextFireDate, days[0].today)] else [];
      var r' := DayAfter(r, days[0]);
      DayKeepsValid(r, days[0]);
      OneMoreDay(r', days[1..], day);
      assert (days + [day])[1..] == days[1..] + [day];
      DatesAppend(first, History(r', days[1..] + [day]));
      DatesAppend(first, History(r', days[1..]));
    }
  }

  /** One rule's days out of the runs of all rules. */
  function DaysOf(days: seq<Date>, fired: seq<set<RuleId>>, id: RuleId): seq<RunDay>
    requires |days| == |fired|
  {
    seq(|days|, k requires 0 <= k < |days| => RunDay(days[k], id !in fired[k]))
  }

  /** After these runs every rule is where its own history puts it, and its transactions
      are dated as its history says. */
  ghost predicate RunsAsHistories(t: Rules, rules: Rules, txs: seq<Fired>, days: seq<Date>, fired: seq<set<RuleId>>)
    requires AllValid(t) && |days| == |fired| && forall d :: d in days ==> ValidDate(d)
  {
    && rules.Keys == t.Keys
    && forall id :: id in t ==> RunsAsHistory(t[id], rules[id], txs, DaysOf(days, fired, id), id)
  }

  predicate RunsAsHistory(r: Rule, r': Rule, txs: seq<Fired>, days: seq<RunDay>, id: RuleId)
    requires ValidRule(r) && forall d :: d in days ==> ValidDate(d.today)
  {
    r' == RuleAfter(r, days) && DatesOf(txs, id) == Dates(History(r, days))
  }

  lemma {:induction false} OneMoreRun(r: Rule, r': Rule, txs: seq<Fired>, days: seq<RunDay>, id: RuleId,
                                      r'': Rule, more: seq<Fired>, day: RunDay)
    requires ValidRule(r) && ValidDate(day.today) && forall d :: d in days ==> ValidDate(d.today)
    requires RunsAsHistory(r, r', txs, days, id) && r'' == DayAfter(r', day)
    requires DatesOf(more, id) == if Fires(r', day) then [r'.nextFireDate] else []
    ensures RunsAsHistory(r, r'', txs + more, days + [day], id)
  {
    OneMoreDay(r, days, day);
    DatesOfAppend(txs, more, id);
  }

  /** The state of the loop after some runs. */
  ghost predicate RanSoFar(t: Rules, base: seq<Fired>, rules: Rules, all: seq<Fired>, days: seq<Date>,
      fired: seq<set<RuleId>>)
  {
    && AllValid(t) && AllValid(rules) && |days| == |fired| && (forall d :: d in days ==> ValidDate(d))
    && base <= all && RunsAsHistories(t, rules, all[|base|..], days, fired)
  }

  /** One run of the loop as the next day of every rule's history. */
  method RunDaily(runner: Runner, today: Date, raising: set<RuleId>,
      ghost t: Rules, ghost base: seq<Fired>, ghost days: seq<Date>, ghost fired: seq<set<RuleId>>)
    returns (ghost now: set<RuleId>)
    requires ValidDate(today) && RanSoFar(t, base, runner.rules, runner.transactions, days, fired)
    modifies runner
    ensures RanSoFar(t, base, runner.rules, runner.transactions, days + [today], fired + [now])
  {
    ghost var before, all := runner.rules, runner.transactions;
    var failed, capReached;
    ghost var more, batches, due;
    failed, capReached, more, now, batches, due := runner.Run(today, raising);
    RanOn(t, base, before, runner.rules, all, more, days, fired, today, now);
  }

  /** Any number of runs, on any days and with any failures: each rule's transactions are
      exactly those of its own history. */
  method RunAll(runner: Runner, days: seq<Date>, raising: seq<set<RuleId>>) returns (ghost fired: seq<set<RuleId>>)
    requires AllValid(runner.rules) && |raising| == |days| && forall d :: d in days ==> ValidDate(d)
    modifies runner
    ensures |fired| == |days| && AllValid(old(runner.rules)) && old(runner.transactions) <= runner.transactions
    ensures RunsAsHistories(old(runner.rules), runner.rules, runner.transactions[|old(runner.transactions)|..],
        days, fired)
  {
    ghost var t, base := runner.rules, runner.transactions;
    fired := [];
    NoRunsYet(t, base);
    TakeAll(days);
    for n := 0 to |days|
      invariant RanSoFar(t, base, runner.rules, runner.transactions, days[..n], fired)
    {
      TakeOneMore(days, n);
      ghost var now := RunDaily(runner, days[n], raising[n], t, base, days[..n], fired);
      fired := fired + [now];
    }
  }

  lemma {:induction false} NoRunsYet(t: Rules, base: seq<Fired>)
    requires AllValid(t)
    ensures RanSoFar(t, base, t, base, [], [])
  {
    assert base[|base|..] == [];
    forall id | id in t ensures RunsAsHistory(t[id], t[id], [], DaysOf([], [], id), id) {
      assert DaysOf([], [], id) == [];
    }
  }

  lemma {:induction false} RanOn(t: Rules, base: seq<Fired>, before: Rules, after: Rules, all: seq<Fired>,
                                 more: seq<Fired>, days: seq<Date>, fired: seq<set<RuleId>>, today: Date,
                                 now: set<RuleId>)
    requires RanSoFar(t, base, before, all, days, fired) && AllValid(after) && ValidDate(today)
    requires FiredExactly(before, after, now, today) && OnePerRule(before, more, now)
    ensures RanSoFar(t, base, after, all + more, days + [today], fired + [now])
  {
    DropAppended(base, all, more);
    RunsGoOn(t, before, after, all[|base|..], more, days, fired, today, now);
  }

  lemma {:induction false} RunsGoOn(t: Rules, before: Rules, after: Rules, txs: seq<Fired>, more: seq<Fired>,
                                    days: seq<Date>, fired: seq<set<RuleId>>, today: Date, now: set<RuleId>)
    requires AllValid(t) && AllValid(before) && |days| == |fired|
    requires ValidDate(today) && forall d :: d in days ==> ValidDate(d)
    requires RunsAsHistories(t, before, txs, days, fired)
    requires FiredExactly(before, after, now, today) && OnePerRule(before, more, now)
    ensures RunsAsHistories(t, after, txs + more, days + [today], fired + [now])
  {
    forall id | id in t
      ensures RunsAsHistory(t[id], after[id], txs + more, DaysOf(days + [today], fired + [now], id), id)
    {
      RuleRunsOn(t, before, after, txs, more, days, fired, today, now, id);
    }
  }

  lemma {:induction false} RuleRunsOn(t: Rules, before: Rules, after: Rules, txs: seq<Fired>, more: seq<Fired>,
                                      days: seq<Date>, fired: seq<set<RuleId>>, today: Date, now: set<RuleId>,
                                      id: RuleId)
    requires AllValid(t) && AllValid(before) && |days| == |fired| && id in t && id in before
    requires ValidDate(today) && forall d :: d in days ==> ValidDate(d)
    requires RunsAsHistory(t[id], before[id], txs, DaysOf(days, fired, id), id)
    requires FiredExactly(before, after, now, today) && OnePerRule(before, more, now)
    ensures forall d :: d in DaysOf(days + [today], fired + [now], id) ==> ValidDate(d.today)
    ensures RunsAsHistory(t[id], after[id], txs + more, DaysOf(days + [today], fired + [now], id), id)
  {
    RunIsOneDay(before, after, more, now, today, id);
    RuleGoesOn(t[id], before[id], after[id], txs, more, days, fired, today, now, id);
  }

  lemma {:induction false} RuleGoesOn(r: Rule, r': Rule, r'': Rule, txs: seq<Fired>, more: seq<Fired>, days: seq<Date>,
                                      fired: seq<set<RuleId>>, today: Date, now: set<RuleId>, id: RuleId)
    requires ValidRule(r) && |days| == |fired| && ValidDate(today) && forall d :: d in days ==> ValidDate(d)
    requires RunsAsHistory(r, r', txs, DaysOf(days, fired, id), id)
    requires r'' == DayAfter(r', RunDay(today, id !in now))
    requires DatesOf(more, id) == if id in now then [r'.nextFireDate] else []
    requires id in now <==> Fires(r', RunDay(today, id !in now))
    ensures forall d :: d in DaysOf(days + [today], fired + [now], id) ==> ValidDate(d.today)
    ensures RunsAsHistory(r, r'', txs + more, DaysOf(days + [today], fired + [now], id), id)
  {
    OneMoreRun(r, r', txs, DaysOf(days, fired, id), id, r'', more, RunDay(today, id !in now));
    DaysOfGrows(days, fired, today, now, id);
  }

  lemma {:induction false} DaysOfGrows(days: seq<Date>, fired: seq<set<RuleId>>, today: Date, now: set<RuleId>,
      id: RuleId)
    requires |days| == |fired|
    ensures DaysOf(days + [today], fired + [now], id) == DaysOf(days, fired, id) + [RunDay(today, id !in now)]
  {
  }
}
