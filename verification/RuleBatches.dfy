/** The batches of one run, as sets of rule ids: which runs the fetch query allows, and
    exactly when all of them try every due rule or stay under the cap. */
module RuleBatches {
  import opened Arith

  type RuleId = nat

  const BATCH: nat := 50
  const MAX_BATCHES: nat := 100

  predicate DistinctIds(s: seq<RuleId>) {
    forall i, j :: 0 <= i < j < |s| ==> s[i] != s[j]
  }

  function Ids(s: seq<RuleId>): set<RuleId> {
    set id | id in s
  }

  /** What a locking fetch of at most `limit` due rules may return. */
  ghost predicate Fetched(batch: seq<RuleId>, due: set<RuleId>, limit: nat) {
    && DistinctIds(batch) && Ids(batch) <= due
    && (|batch| == limit || (|batch| < limit && Ids(batch) == due))
  }

  // ---------- runs ----------

  /** The rules of these batches: those among them that raise have failed, the others are fired. */
  function Tried(batches: seq<seq<RuleId>>): set<RuleId> {
    if batches == [] then {} else Tried(batches[..|batches| - 1]) + Ids(batches[|batches| - 1])
  }

  /** A fetch after these rules were tried: the fired ones are not due any more. */
  ghost predicate FetchedAfter(batch: seq<RuleId>, tried: set<RuleId>, due: set<RuleId>, raising: set<RuleId>) {
    Fetched(batch, due - (tried - raising), BATCH)
  }

  /** Batches fetched one after the other, each with something new in it. */
  ghost predicate Works(due: set<RuleId>, raising: set<RuleId>, batches: seq<seq<RuleId>>) {
    batches == []
    || var front, last := batches[..|batches| - 1], batches[|batches| - 1];
       Works(due, raising, front) && FetchedAfter(last, Tried(front), due, raising) && !(Ids(last) <= Tried(front))
  }

  /** A whole run: as many such batches as the cap allows, or fewer and then a fetch with
      nothing new in it. */
  ghost predicate IsRun(due: set<RuleId>, raising: set<RuleId>, batches: seq<seq<RuleId>>, capReached: bool) {
    if capReached then |batches| == MAX_BATCHES && Works(due, raising, batches)
    else
      && 0 < |batches| <= MAX_BATCHES
      && var front, last := batches[..|batches| - 1], batches[|batches| - 1];
         Works(due, raising, front) && FetchedAfter(last, Tried(front), due, raising) && Ids(last) <= Tried(front)
  }

  lemma {:induction false} OneMoreBatch(batches: seq<seq<RuleId>>, batch: seq<RuleId>)
    ensures (batches + [batch])[..|batches|] == batches
    ensures Tried(batches + [batch]) == Tried(batches) + Ids(batch)
  {
    assert (batches + [batch])[..|batches|] == batches;
  }

  lemma {:induction false} WorksOn(due: set<RuleId>, raising: set<RuleId>, batches: seq<seq<RuleId>>,
      batch: seq<RuleId>)
    requires Works(due, raising, batches) && FetchedAfter(batch, Tried(batches), due, raising)
    requires !(Ids(batch) <= Tried(batches))
    ensures Works(due, raising, batches + [batch]) && Tried(batches + [batch]) == Tried(batches) + Ids(batch)
  {
    OneMoreBatch(batches, batch);
  }

  lemma {:induction false} StopsWith(due: set<RuleId>, raising: set<RuleId>, batches: seq<seq<RuleId>>,
      batch: seq<RuleId>)
    requires Works(due, raising, batches) && FetchedAfter(batch, Tried(batches), due, raising)
    requires Ids(batch) <= Tried(batches) && |batches| < MAX_BATCHES
    ensures IsRun(due, raising, batches + [batch], false) && Tried(batches + [batch]) == Tried(batches)
  {
    OneMoreBatch(batches, batch);
  }

  lemma {:induction false} TriedAreDue(due: set<RuleId>, raising: set<RuleId>, batches: seq<seq<RuleId>>)
    requires Works(due, raising, batches)
    ensures Tried(batches) <= due
  {
    if batches != [] {
      TriedAreDue(due, raising, batches[..|batches| - 1]);
    }
  }

  // ---------- sizes ----------

  lemma {:induction false} SubsetSize(a: set<RuleId>, b: set<RuleId>)
    requires a <= b
    ensures |a| <= |b|
  {
    assert b == a + (b - a);
  }

  lemma {:induction false} SameSize(a: set<RuleId>, b: set<RuleId>)
    requires a <= b && |a| >= |b|
    ensures a == b
  {
    assert b == a + (b - a);
  }

  lemma {:induction false} SetGrows(a: set<RuleId>, b: set<RuleId>, x: RuleId)
    requires a <= b && x in b && x !in a
    ensures |a| + 1 <= |b|
  {
    SubsetSize(a + {x}, b);
  }

  lemma {:induction false} DistinctCount(s: seq<RuleId>)
    requires DistinctIds(s)
    ensures |Ids(s)| == |s|
  {
    if s != [] {
      DistinctCount(s[1..]);
      assert Ids(s) == Ids(s[1..]) + {s[0]};
    }
  }

  /** The least that a working batch adds while f rules raise: a batch less the failed ones,
      and at least one rule. */
  function Gain(f: nat): (g: nat)
    ensures 1 <= g <= BATCH
  {
    if f < BATCH - 1 then BATCH - f else 1
  }

  lemma {:induction false} NewMembers(batch: set<RuleId>, failed: set<RuleId>, tried: set<RuleId>)
    requires tried !! (batch - failed)
    ensures |tried + (batch - failed)| >= |tried| + |batch| - |failed|
  {
    SubsetSize(batch * failed, failed);
    assert batch == (batch - failed) + (batch * failed);
  }

  /** A working batch tries everything that is left, or gains its least. */
  lemma {:induction false} BatchGains(batch: seq<RuleId>, tried: set<RuleId>, due: set<RuleId>, raising: set<RuleId>)
    requires tried <= due && FetchedAfter(batch, tried, due, raising) && !(Ids(batch) <= tried)
    ensures tried + Ids(batch) == due || |tried + Ids(batch)| >= |tried| + Gain(|due * raising|)
  {
    var failed := tried * raising;
    var x :| x in Ids(batch) && x !in tried;
    SetGrows(tried, tried + Ids(batch), x);
    SubsetSize(failed, due * raising);
    if |batch| == BATCH {
      DistinctCount(batch);
      NewMembers(Ids(batch), failed, tried);
      assert tried + (Ids(batch) - failed) == tried + Ids(batch);
    }
  }

  /** The first batch is new altogether. */
  lemma {:induction false} FirstBatch(batch: seq<RuleId>, due: set<RuleId>, raising: set<RuleId>)
    requires FetchedAfter(batch, {}, due, raising)
    ensures Ids(batch) == due || |Ids(batch)| == BATCH
  {
    assert due - ({} - raising) == due;
    DistinctCount(batch);
  }

  /** What n working batches have tried at least. */
  function Least(n: nat, f: nat): int {
    if n == 0 then 0 else BATCH + (n - 1) * Gain(f)
  }

  lemma {:induction false} LeastGrows(n: nat, f: nat)
    ensures Least(n + 1, f) == if n == 0 then BATCH else Least(n, f) + Gain(f)
  {
    MulAdd(n - 1, 1, Gain(f));
  }

  lemma {:induction false} WorkIsDone(due: set<RuleId>, raising: set<RuleId>, batches: seq<seq<RuleId>>)
    requires Works(due, raising, batches)
    ensures Tried(batches) == due || |Tried(batches)| >= Least(|batches|, |due * raising|)
  {
    if batches != [] {
      var n := |batches| - 1;
      var front, last := batches[..n], batches[n];
      WorkIsDone(due, raising, front);
      TriedAreDue(due, raising, front);
      LeastGrows(n, |due * raising|);
      if n == 0 {
        FirstBatch(last, due, raising);
      } else {
        BatchGains(last, Tried(front), due, raising);
      }
    }
  }

  /** Before its last working batch a run has not tried everything. */
  lemma {:induction false} WorkWasLeft(due: set<RuleId>, raising: set<RuleId>, batches: seq<seq<RuleId>>)
    requires Works(due, raising, batches) && batches != []
    ensures |due| > Least(|batches| - 1, |due * raising|)
  {
    var front, last := batches[..|batches| - 1], batches[|batches| - 1];
    WorkIsDone(due, raising, front);
    TriedAreDue(due, raising, front);
    var x :| x in Ids(last) && x !in Tried(front);
    SetGrows(Tried(front), due, x);
  }

  // ---------- runs that do as little as they can ----------

  lemma {:induction false} Pick(s: set<RuleId>, n: nat) returns (picked: set<RuleId>)
    requires n <= |s|
    ensures picked <= s && |picked| == n
    decreases n
  {
    if n == 0 {
      picked := {};
    } else {
      var x :| x in s;
      picked := Pick(s - {x}, n - 1);
      picked := picked + {x};
    }
  }

  lemma {:induction false} InSomeOrder(s: set<RuleId>) returns (order: seq<RuleId>)
    ensures DistinctIds(order) && Ids(order) == s && |order| == |s|
    decreases |s|
  {
    if s == {} {
      order := [];
    } else {
      var x :| x in s;
      var rest := InSomeOrder(s - {x});
      assert forall y :: y in rest ==> y in Ids(rest);
      order := [x] + rest;
      assert Ids(order) == {x} + Ids(rest);
    }
  }

  /** A fetch may return any full batch of the due rules. */
  lemma {:induction false} AnyFullBatch(chosen: set<RuleId>, due: set<RuleId>) returns (batch: seq<RuleId>)
    requires chosen <= due && |chosen| == BATCH
    ensures Fetched(batch, due, BATCH) && Ids(batch) == chosen
  {
    batch := InSomeOrder(chosen);
  }

  /** And any due rule may be in a batch. */
  lemma {:induction false} BatchWith(due: set<RuleId>, x: RuleId) returns (batch: seq<RuleId>)
    requires x in due
    ensures Fetched(batch, due, BATCH) && x in Ids(batch)
  {
    if |due| <= BATCH {
      batch := InSomeOrder(due);
    } else {
      var others := Pick(due - {x}, BATCH - 1);
      batch := AnyFullBatch(others + {x}, due);
    }
  }

  /** A batch of failed rules `stuck` and some untried ones. */
  lemma {:induction false} SlowBatch(due: set<RuleId>, raising: set<RuleId>, tried: set<RuleId>, stuck: set<RuleId>)
    returns (batch: seq<RuleId>)
    requires tried <= due && stuck <= tried * raising && |stuck| < BATCH && |due - tried| >= BATCH - |stuck|
    ensures FetchedAfter(batch, tried, due, raising) && !(Ids(batch) <= tried)
    ensures |tried + Ids(batch)| == |tried| + BATCH - |stuck|
  {
    var untried := Pick(due - tried, BATCH - |stuck|);
    batch := AnyFullBatch(stuck + untried, due - (tried - raising));
    assert tried + Ids(batch) == tried + untried;
    var x :| x in untried;
  }

  lemma {:induction false} SlowStart(due: set<RuleId>, raising: set<RuleId>, stuck: set<RuleId>)
    returns (batch: seq<RuleId>)
    requires stuck <= due * raising && |stuck| < BATCH && |due| >= BATCH
    ensures FetchedAfter(batch, {}, due, raising) && stuck <= Ids(batch) && |Ids(batch)| == BATCH
  {
    assert due == (due - stuck) + stuck;
    var others := Pick(due - stuck, BATCH - |stuck|);
    batch := AnyFullBatch(others + stuck, due);
    assert due - ({} - raising) == due;
  }

  /** n working batches that tried no more than their least, the failed rules among it. */
  ghost predicate Slow(due: set<RuleId>, raising: set<RuleId>, stuck: set<RuleId>, batches: seq<seq<RuleId>>, n: nat) {
    && Works(due, raising, batches) && |batches| == n
    && stuck <= Tried(batches) && |Tried(batches)| == Least(n, |due * raising|)
  }

  lemma {:induction false} NothingTried(batches: seq<seq<RuleId>>)
    requires batches == []
    ensures Tried(batches) == {}
  {
  }

  /** A first batch with anything in it. */
  lemma {:induction false} StartsWork(due: set<RuleId>, raising: set<RuleId>, none: seq<seq<RuleId>>,
      batch: seq<RuleId>)
    requires none == [] && FetchedAfter(batch, {}, due, raising) && |Ids(batch)| >= 1
    ensures Works(due, raising, none + [batch]) && Tried(none + [batch]) == Ids(batch)
  {
    NothingTried(none);
    var x :| x in Ids(batch);
    WorksOn(due, raising, none, batch);
  }

  lemma {:induction false} SlowlyStarted(due: set<RuleId>, raising: set<RuleId>, stuck: set<RuleId>, n: nat)
    returns (batches: seq<seq<RuleId>>)
    requires n == 1 && stuck <= due * raising && |stuck| < BATCH && |due| >= BATCH
    ensures Slow(due, raising, stuck, batches, n)
  {
    batches := [];
    var batch := SlowStart(due, raising, stuck);
    StartsWork(due, raising, batches, batch);
    batches := batches + [batch];
  }

  lemma {:induction false} SlowlyOn(due: set<RuleId>, raising: set<RuleId>, stuck: set<RuleId>,
                                    front: seq<seq<RuleId>>, n: nat)
    returns (batches: seq<seq<RuleId>>)
    requires n >= 1 && stuck <= due * raising && |stuck| == BATCH - Gain(|due * raising|)
    requires Slow(due, raising, stuck, front, n) && |due| >= Least(n + 1, |due * raising|)
    ensures Slow(due, raising, stuck, batches, n + 1)
  {
    TriedAreDue(due, raising, front);
    LeastGrows(n, |due * raising|);
    Untried(Tried(front), due);
    var batch := SlowBatch(due, raising, Tried(front), stuck);
    WorksOn(due, raising, front, batch);
    batches := front + [batch];
  }

  lemma {:induction false} Untried(tried: set<RuleId>, due: set<RuleId>)
    requires tried <= due
    ensures |due - tried| == |due| - |tried|
  {
    assert due == tried + (due - tried);
  }

  /** While enough rules are due, n working batches may try no more than their least: the
      failed rules come back in every one of them. */
  lemma {:induction false} SlowWork(due: set<RuleId>, raising: set<RuleId>, stuck: set<RuleId>, n: nat)
    returns (batches: seq<seq<RuleId>>)
    requires n >= 1 && stuck <= due * raising && |stuck| == BATCH - Gain(|due * raising|)
    requires |due| >= Least(n, |due * raising|)
    ensures Slow(due, raising, stuck, batches, n)
  {
    if n == 1 {
      batches := SlowlyStarted(due, raising, stuck, n);
    } else {
      LeastGrows(n - 1, |due * raising|);
      batches := SlowWork(due, raising, stuck, n - 1);
      batches := SlowlyOn(due, raising, stuck, batches, n - 1);
    }
  }

  lemma {:induction false} SlowlyReturning(due: set<RuleId>, raising: set<RuleId>) returns (stuck: set<RuleId>)
    ensures stuck <= due * raising && |stuck| == BATCH - Gain(|due * raising|)
  {
    stuck := Pick(due * raising, BATCH - Gain(|due * raising|));
  }

  // ---------- what every run does ----------

  /** So few due rules, with f of them raising, that every run tries all of them. */
  predicate AllAreTried(due: nat, f: nat) {
    due <= BATCH || (f < BATCH && due <= Least(MAX_BATCHES, f))
  }

  /** So few that no run reaches the cap. */
  predicate CapIsFar(due: nat, f: nat) {
    due <= Least(MAX_BATCHES - 1, f)
  }

  /** A fetch with nothing new in it holds everything still due, or a whole batch of failures. */
  lemma {:induction false} NothingNew(batch: seq<RuleId>, tried: set<RuleId>, due: set<RuleId>, raising: set<RuleId>)
    requires tried <= due && FetchedAfter(batch, tried, due, raising) && Ids(batch) <= tried
    ensures |tried * raising| < BATCH || |due| <= BATCH ==> tried == due
  {
    DistinctCount(batch);
    if |batch| == BATCH {
      SubsetSize(Ids(batch), tried * raising);
      if |due| <= BATCH {
        SameSize(Ids(batch), due);
      }
    }
  }

  /** The two conditions in figures. */
  lemma {:induction false} InFigures(due: nat, f: nat)
    ensures AllAreTried(due, f) <==> due <= 50 || (f < 50 && due <= 50 + 99 * (50 - f))
    ensures CapIsFar(due, f) <==> due <= 50 + 98 * (if f < 50 then 50 - f else 1)
  {
  }

  /** A run that stops before the cap has tried everything unless a whole batch failed. */
  lemma {:induction false} StoppedRun(due: set<RuleId>, raising: set<RuleId>, batches: seq<seq<RuleId>>)
    requires IsRun(due, raising, batches, false)
    ensures |Tried(batches) * raising| < BATCH || |due| <= BATCH ==> Tried(batches) == due
    ensures Tried(batches) <= due
  {
    var front, last := batches[..|batches| - 1], batches[|batches| - 1];
    TriedAreDue(due, raising, front);
    NothingNew(last, Tried(front), due, raising);
    assert Tried(batches) == Tried(front);
  }

  lemma {:induction false} RunTriesAll(due: set<RuleId>, raising: set<RuleId>, batches: seq<seq<RuleId>>,
      capReached: bool)
    requires IsRun(due, raising, batches, capReached) && AllAreTried(|due|, |due * raising|)
    ensures Tried(batches) == due
  {
    if capReached {
      WorkIsDone(due, raising, batches);
      TriedAreDue(due, raising, batches);
      if Tried(batches) != due {
        SameSize(Tried(batches), due);
      }
    } else {
      StoppedRun(due, raising, batches);
      SubsetSize(Tried(batches) * raising, due * raising);
    }
  }

  /** A full batch of failures can end a run at its second fetch, with nothing fired. */
  lemma {:induction false} FailuresStop(due: set<RuleId>, raising: set<RuleId>) returns (batches: seq<seq<RuleId>>)
    requires |due * raising| >= BATCH
    ensures IsRun(due, raising, batches, false) && |batches| == 2
    ensures |Tried(batches)| == BATCH && Tried(batches) <= raising
  {
    var chosen := Pick(due * raising, BATCH);
    assert due - ({} - raising) == due && due - (chosen - raising) == due;
    var batch := AnyFullBatch(chosen, due);
    batches := [];
    StartsWork(due, raising, batches, batch);
    batches := batches + [batch];
    StopsWith(due, raising, batches, batch);
    batches := batches + [batch];
  }

  lemma {:induction false} SomeRunLeavesRules(due: set<RuleId>, raising: set<RuleId>)
    returns (batches: seq<seq<RuleId>>, capReached: bool)
    requires !AllAreTried(|due|, |due * raising|)
    ensures IsRun(due, raising, batches, capReached) && Tried(batches) != due
    ensures capReached <==> |due * raising| < BATCH
  {
    capReached := |due * raising| < BATCH;
    if capReached {
      var stuck := SlowlyReturning(due, raising);
      batches := SlowWork(due, raising, stuck, MAX_BATCHES);
    } else {
      batches := FailuresStop(due, raising);
    }
  }

  /** Every run tries every due rule exactly if there is at most one batch of them, or fewer
      than a batch of them raise and they fit into a hundred batches that each repeat all of those. */
  lemma {:induction false} AllAreTriedIff(due: set<RuleId>, raising: set<RuleId>)
    ensures (forall batches, capReached :: IsRun(due, raising, batches, capReached) ==> Tried(batches) == due)
            <==> AllAreTried(|due|, |due * raising|)
  {
    if AllAreTried(|due|, |due * raising|) {
      forall batches, capReached | IsRun(due, raising, batches, capReached) ensures Tried(batches) == due {
        RunTriesAll(due, raising, batches, capReached);
      }
    } else {
      var batches, capReached := SomeRunLeavesRules(due, raising);
    }
  }

  lemma {:induction false} CapIsNotReached(due: set<RuleId>, raising: set<RuleId>, batches: seq<seq<RuleId>>)
    requires IsRun(due, raising, batches, true)
    ensures !CapIsFar(|due|, |due * raising|)
  {
    WorkWasLeft(due, raising, batches);
  }

  lemma {:induction false} SomeRunReachesCap(due: set<RuleId>, raising: set<RuleId>)
    returns (batches: seq<seq<RuleId>>)
    requires !CapIsFar(|due|, |due * raising|)
    ensures IsRun(due, raising, batches, true)
  {
    var stuck := SlowlyReturning(due, raising);
    var front := SlowWork(due, raising, stuck, MAX_BATCHES - 1);
    TriedAreDue(due, raising, front);
    Untried(Tried(front), due);
    var x :| x in due - Tried(front);
    var batch := BatchWith(due - (Tried(front) - raising), x);
    WorksOn(due, raising, front, batch);
    batches := front + [batch];
  }

  /** No run reaches the cap exactly if the due rules fit into one batch fewer than the cap. */
  lemma {:induction false} CapIsFarIff(due: set<RuleId>, raising: set<RuleId>)
    ensures (forall batches :: !IsRun(due, raising, batches, true)) <==> CapIsFar(|due|, |due * raising|)
  {
    if CapIsFar(|due|, |due * raising|) {
      forall batches | IsRun(due, raising, batches, true) ensures false {
        CapIsNotReached(due, raising, batches);
      }
    } else {
      var batches := SomeRunReachesCap(due, raising);
    }
  }

  /** Some run stops before the cap with due rules untried exactly if more than a batch are
      due and a whole batch of them raises: those fifty can then hide all others. */
  lemma {:induction false} FailuresHideRulesIff(due: set<RuleId>, raising: set<RuleId>)
    ensures (exists batches :: IsRun(due, raising, batches, false) && Tried(batches) != due)
            <==> |due| > BATCH && |due * raising| >= BATCH
  {
    if |due| > BATCH && |due * raising| >= BATCH {
      var batches := FailuresStop(due, raising);
    }
    if batches :| IsRun(due, raising, batches, false) && Tried(batches) != due {
      StoppedRun(due, raising, batches);
      SubsetSize(Tried(batches) * raising, due * raising);
    }
  }

  /** The same of a single fetch, given what has failed so far. */
  lemma {:induction false} FetchHidesRulesIff(due: set<RuleId>, failed: set<RuleId>)
    requires failed < due
    ensures (exists batch :: Fetched(batch, due, BATCH) && Ids(batch) <= failed) <==> |failed| >= BATCH
  {
    if |failed| >= BATCH {
      var chosen := Pick(failed, BATCH);
      var batch := AnyFullBatch(chosen, due);
    }
    if batch :| Fetched(batch, due, BATCH) && Ids(batch) <= failed {
      DistinctCount(batch);
      SubsetSize(Ids(batch), failed);
    }
  }
}
