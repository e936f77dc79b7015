/** The rate limiter's GCRA script over an expiring key, its reference (a
    continuously refilled token bucket that never expires), and what the answers mean. */
module Gcra {
  import opened Arith
  import opened Collections
  import opened Wrappers

  /** The stored theoretical arrival time and the instant its key expires. */
  datatype Entry = Entry(tat: int, expireAt: int)

  type Key = Option<Entry>

  /** interval: milliseconds per request; burst: requests a fresh client may make at
      once; burstMs: the same in milliseconds, as the script receives it. */
  datatype Limit = Limit(interval: int, burst: int, burstMs: int)

  predicate ValidLimit(l: Limit) {
    l.interval >= 1 && l.burst >= 0 && l.burstMs >= 0
  }

  predicate Calibrated(l: Limit) {
    ValidLimit(l) && l.burstMs == l.burst * l.interval
  }

  datatype Answer = Answer(allowed: bool, remaining: int, resetMs: int, retryAfterMs: int)

  // ---------- the script ----------

  /** `GET key or now`, then `if tat < now then tat = now`. A key past its expiry is gone. */
  function EffectiveTat(k: Key, now: int): int {
    var tat := if k.Some? && now <= k.value.expireAt then k.value.tat else now;
    if tat < now then now else tat
  }

  function Decide(k: Key, now: int, l: Limit): (Answer, Key)
    requires ValidLimit(l)
  {
    var tat := EffectiveTat(k, now);
    var newTat := tat + l.interval;
    var allowAt := newTat - l.burstMs;
    if now >= allowAt then
      var remaining := (l.burstMs - (newTat - now)) / l.interval;
      (Answer(true, if remaining < 0 then 0 else remaining, newTat - now, 0),
       Some(Entry(newTat, now + l.burstMs + l.interval)))
    else
      (Answer(false, 0, tat - now, allowAt - now), k)
  }

  /** Keys the script itself can have written at or before `now`: the time to live
      outlasts the last instant at which the key can still throttle anybody. */
  predicate ValidKey(k: Key, l: Limit, now: int)
    requires ValidLimit(l)
  {
    k.Some? ==> k.value.tat + l.interval <= k.value.expireAt <= now + l.burstMs + l.interval
  }

  lemma {:induction false} DecideKeepsValid(k: Key, now: int, l: Limit)
    requires ValidLimit(l) && ValidKey(k, l, now)
    ensures ValidKey(Decide(k, now, l).1, l, now)
  {
  }

  /** A key that reached its expiry answers every later request as a fresh client's. */
  lemma {:induction false} ExpiryIsInvisible(k: Key, now: int, l: Limit)
    requires ValidLimit(l) && k.Some? && k.value.tat + l.interval <= k.value.expireAt
    requires k.value.expireAt <= now
    ensures Decide(k, now, l).0 == Decide(None, now, l).0
    ensures Decide(k, now, l).0 == Decide(Some(k.value.(expireAt := now)), now, l).0
  {
  }

  /** The key survives as long as it can matter: while its time is ahead of the clock, it is still there. */
  lemma {:induction false} LiveWhileThrottling(k: Key, now: int, l: Limit)
    requires ValidLimit(l) && k.Some? && k.value.tat + l.interval <= k.value.expireAt
    ensures EffectiveTat(k, now) == if k.value.tat < now then now else k.value.tat
  {
  }

  // ---------- the reference: a token bucket ----------

  /** Tokens at an instant; refilled at one token per interval up to `burst`. */
  datatype Bucket = Bucket(tokens: real, at: int)

  function Min(a: real, b: real): real {
    if a <= b then a else b
  }

  function Refill(b: Bucket, now: int, l: Limit): real
    requires ValidLimit(l)
  {
    Min(l.burst as real, b.tokens + ((now - b.at) as real) / (l.interval as real))
  }

  /** One request: take a token if a whole one is there. */
  function Take(b: Bucket, now: int, l: Limit): (bool, Bucket)
    requires ValidLimit(l)
  {
    var t := Refill(b, now, l);
    if t >= 1.0 then (true, Bucket(t - 1.0, now)) else (false, Bucket(t, now))
  }

  function FullBucket(now: int, l: Limit): Bucket {
    Bucket(l.burst as real, now)
  }

  predicate Nondecreasing(ts: seq<int>, from: int) {
    && (forall i :: 0 <= i < |ts| ==> from <= ts[i])
    && (forall i, j :: 0 <= i <= j < |ts| ==> ts[i] <= ts[j])
  }

  function Decisions(k: Key, ts: seq<int>, l: Limit): seq<bool>
    requires ValidLimit(l)
    decreases |ts|
  {
    if ts == [] then []
    else var (a, k') := Decide(k, ts[0], l); [a.allowed] + Decisions(k', ts[1..], l)
  }

  function BucketDecisions(b: Bucket, ts: seq<int>, l: Limit): seq<bool>
    requires ValidLimit(l)
    decreases |ts|
  {
    if ts == [] then []
    else var (a, b') := Take(b, ts[0], l); [a] + BucketDecisions(b', ts[1..], l)
  }

  /** The bucket holds what the key's arrival time leaves of the burst. */
  predicate Agree(k: Key, b: Bucket, l: Limit)
    requires ValidLimit(l)
  {
    && ValidKey(k, l, b.at)
    && EffectiveTat(k, b.at) - b.at <= l.burstMs
    && b.tokens * (l.interval as real) == (l.burstMs - (EffectiveTat(k, b.at) - b.at)) as real
  }

  lemma {:induction false} RefillScaled(b: Bucket, now: int, l: Limit)
    requires Calibrated(l) && b.at <= now
    ensures Refill(b, now, l) * (l.interval as real)
            == Min(l.burstMs as real, b.tokens * (l.interval as real) + (now - b.at) as real)
  {
    var i := l.interval as real;
    var d := (now - b.at) as real;
    assert (d / i) * i == d;
    assert (b.tokens + d / i) * i == b.tokens * i + d;
    assert (l.burst as real) * i == l.burstMs as real;
    if l.burst as real <= b.tokens + d / i {
      assert (l.burst as real) * i <= (b.tokens + d / i) * i;
    } else {
      assert (l.burst as real) * i > (b.tokens + d / i) * i;
    }
  }

  lemma {:induction false} WholeTokenScaled(t: real, i: real)
    requires i > 0.0
    ensures t >= 1.0 <==> t * i >= i
    ensures (t - 1.0) * i == t * i - i
  {
  }

  /** The refilled bucket is the burst less the key's backlog at that instant. */
  lemma {:induction false} RefillIsHeadroom(k: Key, b: Bucket, now: int, l: Limit)
    requires Calibrated(l) && Agree(k, b, l) && b.at <= now
    ensures Refill(b, now, l) * (l.interval as real) == (l.burstMs - (EffectiveTat(k, now) - now)) as real
    ensures EffectiveTat(k, now) - now <= l.burstMs
  {
    RefillScaled(b, now, l);
    if k.Some? {
      LiveWhileThrottling(k, now, l);
      LiveWhileThrottling(k, b.at, l);
    }
  }

  /** The real-number half of a request: taking a token is spending one interval. */
  lemma {:induction false} TakeIsHeadroom(b: Bucket, now: int, l: Limit, headroom: int)
    requires ValidLimit(l) && Refill(b, now, l) * (l.interval as real) == headroom as real
    ensures Take(b, now, l).0 <==> headroom >= l.interval
    ensures Take(b, now, l).1.at == now
    ensures Take(b, now, l).1.tokens * (l.interval as real)
            == (if headroom >= l.interval then headroom - l.interval else headroom) as real
  {
    WholeTokenScaled(Refill(b, now, l), l.interval as real);
  }

  /** The integer half: the script allows what fits the headroom and spends as much. */
  lemma {:induction false} DecideIsHeadroom(k: Key, now: int, l: Limit)
    requires ValidLimit(l)
    ensures var headroom := l.burstMs - (EffectiveTat(k, now) - now);
            var (a, k') := Decide(k, now, l);
            && (a.allowed <==> headroom >= l.interval)
            && l.burstMs - (EffectiveTat(k', now) - now) == (if a.allowed then headroom - l.interval else headroom)
  {
  }

  /** One request keeps the agreement, and both sides decide it alike. */
  lemma {:induction false} StepAgrees(k: Key, b: Bucket, now: int, l: Limit)
    requires Calibrated(l) && Agree(k, b, l) && b.at <= now
    ensures Decide(k, now, l).0.allowed == Take(b, now, l).0
    ensures Agree(Decide(k, now, l).1, Take(b, now, l).1, l)
  {
    RefillIsHeadroom(k, b, now, l);
    TakeIsHeadroom(b, now, l, l.burstMs - (EffectiveTat(k, now) - now));
    DecideIsHeadroom(k, now, l);
    DecideKeepsValid(k, now, l);
  }

  lemma {:induction false} RunsAgree(k: Key, b: Bucket, ts: seq<int>, l: Limit)
    requires Calibrated(l) && Agree(k, b, l) && Nondecreasing(ts, b.at)
    ensures Decisions(k, ts, l) == BucketDecisions(b, ts, l)
    decreases |ts|
  {
    if ts != [] {
      StepAgrees(k, b, ts[0], l);
      RunsAgree(Decide(k, ts[0], l).1, Take(b, ts[0], l).1, ts[1..], l);
    }
  }

  /** On every request sequence with a nondecreasing clock, from a fresh client, the
      expiring script decides as the never-expiring bucket that starts full. */
  lemma {:induction false} ScriptIsTokenBucket(ts: seq<int>, start: int, l: Limit)
    requires Calibrated(l) && Nondecreasing(ts, start)
    ensures Decisions(None, ts, l) == BucketDecisions(FullBucket(start, l), ts, l)
  {
    assert (l.burst as real) * (l.interval as real) == l.burstMs as real;
    RunsAgree(None, FullBucket(start, l), ts, l);
  }

  // ---------- how much gets through ----------

  function Accepted(ds: seq<bool>): nat {
    if ds == [] then 0 else (if ds[0] then 1 else 0) + Accepted(ds[1..])
  }

  function KeyAfter(k: Key, ts: seq<int>, l: Limit): Key
    requires ValidLimit(l)
    decreases |ts|
  {
    if ts == [] then k else KeyAfter(Decide(k, ts[0], l).1, ts[1..], l)
  }

  lemma {:induction false} DecisionsLength(k: Key, ts: seq<int>, l: Limit)
    requires ValidLimit(l)
    ensures |Decisions(k, ts, l)| == |ts|
    decreases |ts|
  {
    if ts != [] { DecisionsLength(Decide(k, ts[0], l).1, ts[1..], l); }
  }

  /** Any window of a run is a run from a key the script left behind. */
  lemma {:induction false} WindowIsRun(k: Key, ts: seq<int>, l: Limit, i: nat, from: int)
    requires ValidLimit(l) && i <= |ts| && ValidKey(k, l, from) && Nondecreasing(ts, from)
    ensures |Decisions(k, ts, l)| == |ts|
    ensures Decisions(k, ts, l)[i..] == Decisions(KeyAfter(k, ts[..i], l), ts[i..], l)
    ensures i < |ts| ==> ValidKey(KeyAfter(k, ts[..i], l), l, ts[i])
    decreases i
  {
    DecisionsLength(k, ts, l);
    if i > 0 {
      var (a, k') := Decide(k, ts[0], l);
      DecideKeepsValid(k, ts[0], l);
      WindowIsRun(k', ts[1..], l, i - 1, ts[0]);
      TailSlices(ts, i);
      DropPastFirst(a.allowed, Decisions(k', ts[1..], l), i);
    }
  }

  lemma {:induction false} CutIsRun(k: Key, ts: seq<int>, l: Limit, n: nat)
    requires ValidLimit(l) && n <= |ts|
    ensures |Decisions(k, ts, l)| == |ts|
    ensures Decisions(k, ts[..n], l) == Decisions(k, ts, l)[..n]
    decreases n
  {
    DecisionsLength(k, ts, l);
    if n > 0 {
      CutIsRun(Decide(k, ts[0], l).1, ts[1..], l, n - 1);
      assert ts[..n][1..] == ts[1..][..n - 1];
    }
  }

  /** An accepted request moves the effective arrival time up by at least one interval; a
      denied one never moves it back. */
  lemma {:induction false} TatAdvances(k: Key, now: int, later: int, l: Limit)
    requires ValidLimit(l) && ValidKey(k, l, now) && now <= later
    ensures var (a, k') := Decide(k, now, l);
            EffectiveTat(k', later) >= EffectiveTat(k, now) + if a.allowed then l.interval else 0
  {
  }

  lemma {:induction false} OneMoreDecision(k: Key, ts: seq<int>, l: Limit)
    requires ValidLimit(l) && ts != []
    ensures var (a, k') := Decide(k, ts[0], l);
            var rest := Decisions(k', ts[1..], l);
            && Decisions(k, ts, l) == [a.allowed] + rest
            && Accepted(Decisions(k, ts, l)) == Accepted(rest) + if a.allowed then 1 else 0
  {
    var rest := Decisions(Decide(k, ts[0], l).1, ts[1..], l);
    assert Decisions(k, ts, l)[1..] == rest;
  }

  /** Every accepted request pushes the arrival time one interval further, and an
      accepted one leaves it at most a burst ahead of its own instant. */
  lemma {:induction false} AcceptedAreSpaced(k: Key, ts: seq<int>, l: Limit)
    requires ValidLimit(l) && ts != [] && Nondecreasing(ts, ts[0]) && ValidKey(k, l, ts[0])
    requires |Decisions(k, ts, l)| == |ts| && Decisions(k, ts, l)[|ts| - 1]
    ensures EffectiveTat(k, ts[0]) + Accepted(Decisions(k, ts, l)) * l.interval <= ts[|ts| - 1] + l.burstMs
    decreases |ts|
  {
    var (a, k') := Decide(k, ts[0], l);
    var rest := Decisions(k', ts[1..], l);
    OneMoreDecision(k, ts, l);
    var n := Accepted(rest);
    if |ts| == 1 {
      assert n == 0;
    } else {
      DecideKeepsValid(k, ts[0], l);
      TatAdvances(k, ts[0], ts[1], l);
      AcceptedAreSpaced(k', ts[1..], l);
      MulAdd(n, 1, l.interval);
    }
  }

  /** The burst law: n accepted requests from t1 to tn satisfy n * interval <= burst + (tn - t1). */
  lemma {:induction false} BurstLaw(k: Key, ts: seq<int>, l: Limit, from: int, i: nat, j: nat)
    requires ValidLimit(l) && ValidKey(k, l, from) && Nondecreasing(ts, from) && i <= j < |ts|
    requires |Decisions(k, ts, l)| == |ts| && Decisions(k, ts, l)[j]
    ensures Accepted(Decisions(k, ts, l)[i..j + 1]) * l.interval <= l.burstMs + (ts[j] - ts[i])
  {
    var key := CutOut(k, ts, l, from, i, j);
    WindowIsSpaced(key, ts[i..j + 1], l);
  }

  /** Requests i..j of a run, as a run of their own from the key left behind before them. */
  lemma {:induction false} CutOut(k: Key, ts: seq<int>, l: Limit, from: int, i: nat, j: nat) returns (key: Key)
    requires ValidLimit(l) && ValidKey(k, l, from) && Nondecreasing(ts, from) && i <= j < |ts|
    ensures |Decisions(k, ts, l)| == |ts| && ValidKey(key, l, ts[i])
    ensures Decisions(key, ts[i..j + 1], l) == Decisions(k, ts, l)[i..j + 1]
    ensures Nondecreasing(ts[i..j + 1], ts[i])
  {
    var cut := ts[..j + 1];
    key := KeyAfter(k, cut[..i], l);
    CutIsRun(k, ts, l, j + 1);
    WindowIsRun(k, cut, l, i, from);
    assert ts[i..j + 1] == cut[i..];
    assert Decisions(k, ts, l)[i..j + 1] == Decisions(k, ts, l)[..j + 1][i..];
  }

  lemma {:induction false} WindowIsSpaced(k: Key, ts: seq<int>, l: Limit)
    requires ValidLimit(l) && ts != [] && Nondecreasing(ts, ts[0]) && ValidKey(k, l, ts[0])
    requires |Decisions(k, ts, l)| == |ts| && Decisions(k, ts, l)[|ts| - 1]
    ensures Accepted(Decisions(k, ts, l)) * l.interval <= l.burstMs + (ts[|ts| - 1] - ts[0])
  {
    AcceptedAreSpaced(k, ts, l);
  }

  const MINUTE := 60_000

  lemma {:induction false} AcceptedAppend(a: seq<bool>, d: bool)
    ensures Accepted(a + [d]) == Accepted(a) + if d then 1 else 0
  {
    if a != [] {
      AcceptedAppend(a[1..], d);
      assert (a + [d])[1..] == a[1..] + [d];
    } else {
      assert [d][1..] == [];
    }
  }

  /** In any window no longer than a minute at most `burst` and the minute's intervals get through. */
  lemma {:induction false} MinuteBound(k: Key, ts: seq<int>, l: Limit, from: int, i: nat, j: nat)
    requires Calibrated(l) && ValidKey(k, l, from) && Nondecreasing(ts, from)
    requires i <= j < |ts| && ts[j] - ts[i] <= MINUTE && |Decisions(k, ts, l)| == |ts|
    ensures Accepted(Decisions(k, ts, l)[i..j + 1]) <= l.burst + MINUTE / l.interval
    decreases j
  {
    var ds := Decisions(k, ts, l);
    if ds[j] {
      BurstLaw(k, ts, l, from, i, j);
      FitsIntervals(Accepted(ds[i..j + 1]), l.burst, l.interval, MINUTE);
    } else {
      assert ds[i..j + 1] == ds[i..j] + [ds[j]];
      AcceptedAppend(ds[i..j], ds[j]);
      if i < j {
        MinuteBound(k, ts, l, from, i, j - 1);
      }
    }
  }

  lemma {:induction false} FitsIntervals(n: int, burst: int, interval: int, span: int)
    requires interval >= 1 && n * interval <= burst * interval + span
    ensures n <= burst + span / interval
  {
    MulAdd(n, -burst, interval);
    DivGreatest(n - burst, interval, span);
  }

  // ---------- the bound is attained ----------

  /** A full burst at once, then one request per interval. */
  function GreedyTime(m: nat, l: Limit): int {
    if m < l.burst then 0 else (m - l.burst + 1) * l.interval
  }

  function Greedy(m: nat, n: nat, l: Limit): (ts: seq<int>)
    requires m <= n
    ensures |ts| == n - m
    decreases n - m
  {
    if m == n then [] else [GreedyTime(m, l)] + Greedy(m + 1, n, l)
  }

  lemma {:induction false} GreedyAt(m: nat, n: nat, l: Limit, i: nat)
    requires m <= n && i < n - m
    ensures Greedy(m, n, l)[i] == GreedyTime(m + i, l)
    decreases i
  {
    if i > 0 { GreedyAt(m + 1, n, l, i - 1); }
  }

  lemma {:induction false} GreedyMonotone(a: nat, b: nat, l: Limit)
    requires ValidLimit(l) && a <= b
    ensures 0 <= GreedyTime(a, l) <= GreedyTime(b, l)
  {
    if a >= l.burst {
      MulLe(0, a - l.burst + 1, l.interval);
      MulLe(a - l.burst + 1, b - l.burst + 1, l.interval);
    } else if b >= l.burst {
      MulLe(0, b - l.burst + 1, l.interval);
    }
  }

  lemma {:induction false} GreedySpan(l: Limit, extra: nat)
    requires Calibrated(l) && l.burst >= 1
    ensures var ts := Greedy(0, l.burst + extra, l);
            && |ts| == l.burst + extra && Nondecreasing(ts, 0)
            && ts[0] == 0 && ts[|ts| - 1] == extra * l.interval
  {
    var n := l.burst + extra;
    var ts := Greedy(0, n, l);
    forall i, j | 0 <= i <= j < |ts| ensures 0 <= ts[i] <= ts[j] {
      GreedyAt(0, n, l, i);
      GreedyAt(0, n, l, j);
      GreedyMonotone(i, j, l);
    }
    GreedyAt(0, n, l, 0);
    GreedyAt(0, n, l, n - 1);
    assert GreedyTime(0, l) == 0 by { MulLe(0, 1, l.interval); }
  }

  /** A greedy request comes no later than its m intervals, and no earlier than the script allows. */
  lemma {:induction false} GreedyWithin(m: nat, l: Limit)
    requires Calibrated(l) && l.burst >= 1
    ensures (m + 1) * l.interval - l.burstMs <= GreedyTime(m, l) <= m * l.interval
  {
    MulAdd(m + 1, -l.burst, l.interval);
    if m < l.burst {
      MulLe(m + 1 - l.burst, 0, l.interval);
      MulLe(0, m, l.interval);
    } else {
      MulLe(m - l.burst + 1, m, l.interval);
    }
  }

  /** When the key's arrival time is m intervals, the m-th greedy request is accepted and makes it m + 1. */
  lemma {:induction false} GreedyStep(k: Key, m: nat, l: Limit)
    requires Calibrated(l) && l.burst >= 1
    requires EffectiveTat(k, GreedyTime(m, l)) == m * l.interval
    ensures Decide(k, GreedyTime(m, l), l).0.allowed
    ensures EffectiveTat(Decide(k, GreedyTime(m, l), l).1, GreedyTime(m + 1, l)) == (m + 1) * l.interval
  {
    MulAdd(m, 1, l.interval);
    GreedyWithin(m, l);
    GreedyWithin(m + 1, l);
    AcceptAt(k, GreedyTime(m, l), GreedyTime(m + 1, l), m * l.interval, l);
  }

  lemma {:induction false} AcceptAt(k: Key, now: int, next: int, tat: int, l: Limit)
    requires ValidLimit(l) && EffectiveTat(k, now) == tat && now >= tat + l.interval - l.burstMs
    requires next <= tat + l.interval
    ensures Decide(k, now, l).0.allowed
    ensures EffectiveTat(Decide(k, now, l).1, next) == tat + l.interval
  {
  }

  lemma {:induction false} GreedyAccepted(k: Key, m: nat, n: nat, l: Limit)
    requires Calibrated(l) && l.burst >= 1 && m <= n
    requires m < n ==> EffectiveTat(k, GreedyTime(m, l)) == m * l.interval
    ensures Accepted(Decisions(k, Greedy(m, n, l), l)) == n - m
    decreases n - m
  {
    if m < n {
      GreedyStep(k, m, l);
      var k' := Decide(k, GreedyTime(m, l), l).1;
      GreedyAccepted(k', m + 1, n, l);
      assert Greedy(m, n, l)[1..] == Greedy(m + 1, n, l);
      assert Decisions(k, Greedy(m, n, l), l)[1..] == Decisions(k', Greedy(m + 1, n, l), l);
    }
  }

  /** From a fresh client, a burst and then one request per interval are all accepted,
      so the burst law is an equality and cannot be improved. */
  lemma {:induction false} BoundIsAttained(l: Limit, extra: nat)
    requires Calibrated(l) && l.burst >= 1
    ensures var ts := Greedy(0, l.burst + extra, l);
            && Nondecreasing(ts, 0) && |Decisions(None, ts, l)| == |ts| == l.burst + extra
            && Accepted(Decisions(None, ts, l)) == l.burst + extra
            && ts[|ts| - 1] - ts[0] == extra * l.interval
            && (l.burst + extra) * l.interval == l.burstMs + (ts[|ts| - 1] - ts[0])
  {
    GreedySpan(l, extra);
    DecisionsLength(None, Greedy(0, l.burst + extra, l), l);
    GreedyAccepted(None, 0, l.burst + extra, l);
    MulAdd(l.burst, extra, l.interval);
  }

  /** The limit a policy of `rate` requests per minute runs with. */
  function LimitOf(rate: int, burst: int): Limit {
    var interval := MINUTE / (if rate < 1 then 1 else rate);
    Limit(interval, burst, burst * interval)
  }

  ghost predicate MinuteBoundHolds(rate: int, burst: int)
    requires ValidLimit(LimitOf(rate, burst))
  {
    var l := LimitOf(rate, burst);
    forall k, ts, from, i, j {:trigger Window(k, ts, l, from, i, j)} ::
      Window(k, ts, l, from, i, j) ==> Accepted(Decisions(k, ts, l)[i..j + 1]) <= rate + burst
  }

  /** Requests i..j of a run, no more than a minute apart. */
  ghost predicate Window(k: Key, ts: seq<int>, l: Limit, from: int, i: int, j: int) {
    && ValidLimit(l) && ValidKey(k, l, from) && Nondecreasing(ts, from)
    && 0 <= i <= j < |ts| && ts[j] - ts[i] <= MINUTE && |Decisions(k, ts, l)| == |ts|
  }

  /** "At most rate + burst in any minute" is true of exactly those rates that the
      floored interval reproduces; every rate dividing the minute is one of them. */
  lemma {:induction false} MinuteBoundIff(rate: int, burst: int)
    requires 1 <= rate <= MINUTE && burst >= 1
    ensures ValidLimit(LimitOf(rate, burst))
    ensures MinuteBoundHolds(rate, burst) <==> MINUTE / (MINUTE / rate) == rate
    ensures MINUTE % rate == 0 ==> MINUTE / (MINUTE / rate) == rate
  {
    var l := LimitOf(rate, burst);
    FloorFacts(rate);
    MulLe(0, burst, l.interval);
    if MINUTE / l.interval == rate {
      forall k, ts, from, i, j | Window(k, ts, l, from, i, j)
        ensures Accepted(Decisions(k, ts, l)[i..j + 1]) <= rate + burst
      {
        MinuteBound(k, ts, l, from, i, j);
      }
    } else {
      OverfullMinute(rate, burst);
    }
  }

  /** A rate in range that breaks the bound: 7000 a minute runs with an interval of 8 ms,
      and 7500 such intervals fit into a minute. */
  lemma {:induction false} SevenThousandIsTooFast(burst: int)
    requires burst >= 1
    ensures ValidLimit(LimitOf(7000, burst)) && !MinuteBoundHolds(7000, burst)
  {
    assert MINUTE / 7000 == 8 && MINUTE / 8 == 7500;
    MinuteBoundIff(7000, burst);
  }

  /** A minute in which the floored interval lets more than rate + burst through. */
  lemma {:induction false} OverfullMinute(rate: int, burst: int)
    requires 1 <= rate <= MINUTE && burst >= 1 && MINUTE / rate >= 1 && MINUTE / (MINUTE / rate) > rate
    requires ValidLimit(LimitOf(rate, burst))
    ensures !MinuteBoundHolds(rate, burst)
  {
    var l := LimitOf(rate, burst);
    DivBounds(MINUTE, l.interval);
    FullWindow(l, MINUTE / l.interval);
  }

  /** The sequence that attains the bound, as one window of a fresh client's run. */
  lemma {:induction false} FullWindow(l: Limit, extra: nat)
    requires Calibrated(l) && l.burst >= 1 && extra * l.interval <= MINUTE
    ensures exists ts: seq<int> :: ts != [] && Window(None, ts, l, 0, 0, |ts| - 1)
                                   && Accepted(Decisions(None, ts, l)[0..|ts|]) == l.burst + extra
  {
    var ts := Greedy(0, l.burst + extra, l);
    BoundIsAttained(l, extra);
    assert Decisions(None, ts, l)[0..|ts|] == Decisions(None, ts, l);
    assert Window(None, ts, l, 0, 0, |ts| - 1);
  }

  lemma {:induction false} FloorFacts(rate: int)
    requires 1 <= rate <= MINUTE
    ensures MINUTE / rate >= 1
    ensures MINUTE / (MINUTE / rate) >= rate
    ensures MINUTE % rate == 0 ==> MINUTE / (MINUTE / rate) == rate
  {
    var i := MINUTE / rate;
    DivGreatest(1, rate, MINUTE);
    DivBounds(MINUTE, rate);
    DivGreatest(rate, i, MINUTE);
    if MINUTE % rate == 0 {
      assert i * rate == MINUTE;
      MulAdd(rate, 1, i);
      DivGreatest(rate + 1, i, MINUTE);
    }
  }

  // ---------- the answers are exact ----------

  function Repeat(now: int, n: nat): (ts: seq<int>)
    ensures |ts| == n
  {
    if n == 0 then [] else [now] + Repeat(now, n - 1)
  }

  function FirstTrue(r: int, n: nat): (ds: seq<bool>)
    ensures |ds| == n
    decreases n
  {
    if n == 0 then [] else [r > 0] + FirstTrue(r - 1, n - 1)
  }

  lemma {:induction false} AllDenied(k: Key, now: int, l: Limit, n: nat, r: int)
    requires ValidLimit(l) && !Decide(k, now, l).0.allowed && r <= 0
    ensures Decisions(k, Repeat(now, n), l) == FirstTrue(r, n)
  {
    if n > 0 {
      AllDenied(k, now, l, n - 1, r - 1);
      assert Repeat(now, n)[1..] == Repeat(now, n - 1);
    }
  }

  lemma {:induction false} HeadroomIsExact(k: Key, now: int, l: Limit, n: nat)
    requires ValidLimit(l) && 0 <= l.burstMs - (EffectiveTat(k, now) - now)
    ensures Decisions(k, Repeat(now, n), l) == FirstTrue((l.burstMs - (EffectiveTat(k, now) - now)) / l.interval, n)
    decreases n
  {
    var h := l.burstMs - (EffectiveTat(k, now) - now);
    DecideIsHeadroom(k, now, l);
    DivGreatest(1, l.interval, h);
    if h < l.interval {
      AllDenied(k, now, l, n, h / l.interval);
    } else if n > 0 {
      HeadroomIsExact(Decide(k, now, l).1, now, l, n - 1);
      DivShift(h, l.interval);
      assert Repeat(now, n)[1..] == Repeat(now, n - 1);
    }
  }

  /** After an answer reporting `remaining`, accepted or denied, exactly that many more requests
      at the same instant are accepted, and then none. */
  lemma {:induction false} RemainingIsExact(k: Key, now: int, l: Limit, n: nat)
    requires ValidLimit(l) && ValidKey(k, l, now)
    ensures Decisions(Decide(k, now, l).1, Repeat(now, n), l) == FirstTrue(Decide(k, now, l).0.remaining, n)
    ensures Decide(k, now, l).0.remaining >= 0
  {
    DecideIsHeadroom(k, now, l);
    DecideKeepsValid(k, now, l);
    if Decide(k, now, l).0.allowed {
      HeadroomIsExact(Decide(k, now, l).1, now, l, n);
    } else {
      AllDenied(k, now, l, n, 0);
    }
  }

  function CeilSeconds(ms: int): int {
    var s := if ms <= 0 then -(-ms / 1000) else (ms + 999) / 1000;
    if s < 1 then 1 else s
  }

  /** After a denial, with nothing else accepted, a request is allowed exactly from
      `retryAfterMs` on; the header, rounded up to seconds, is the least whole number
      of seconds (at least one) that is not too short. */
  lemma {:induction false} RetryAfterIsExact(k: Key, now: int, l: Limit, t: int)
    requires ValidLimit(l) && ValidKey(k, l, now) && l.burstMs >= l.interval
    requires !Decide(k, now, l).0.allowed && now <= t
    ensures Decide(k, now, l).0.retryAfterMs > 0
    ensures Decide(k, t, l).0.allowed <==> t >= now + Decide(k, now, l).0.retryAfterMs
    ensures var s := CeilSeconds(Decide(k, now, l).0.retryAfterMs);
            Decide(k, now + 1000 * s, l).0.allowed && (s == 1 || !Decide(k, now + 1000 * (s - 1), l).0.allowed)
  {
  }

  /** Accepted or denied: with nothing further accepted, the key stops mattering exactly when
      `resetMs` has passed, and from then on the client is a fresh one again. */
  lemma {:induction false} ResetIsExact(k: Key, now: int, l: Limit, t: int)
    requires ValidLimit(l) && ValidKey(k, l, now) && now <= t && l.burstMs >= l.interval
    ensures Decide(Decide(k, now, l).1, t, l).0 == Decide(None, t, l).0 <==> t >= now + Decide(k, now, l).0.resetMs
  {
    var (a, k') := Decide(k, now, l);
    DecideKeepsValid(k, now, l);
    if k'.Some? {
      LiveWhileThrottling(k', t, l);
    }
  }

  /** The header's seconds are the least whole number, at least one, that is not too short. */
  lemma {:induction false} CeilIsLeast(ms: int)
    ensures CeilSeconds(ms) >= 1 && 1000 * CeilSeconds(ms) >= ms
    ensures CeilSeconds(ms) > 1 ==> 1000 * (CeilSeconds(ms) - 1) < ms
  {
  }

  /** Only a denied request is told to wait. */
  lemma {:induction false} AcceptedNeedNotWait(k: Key, now: int, l: Limit)
    requires ValidLimit(l)
    ensures Decide(k, now, l).0.retryAfterMs == 0 <==> Decide(k, now, l).0.allowed
    ensures Decide(k, now, l).0.retryAfterMs >= 0
  {
  }

  /** A policy's interval is the longest that still gives its rate; its burst is that many of them. */
  lemma {:induction false} LimitMeans(rate: int, burst: int)
    ensures var l := LimitOf(rate, burst);
            && (1 <= rate <= 60_000 ==> l.interval * rate <= 60_000 < (l.interval + 1) * rate)
            && (rate < 1 ==> l.interval == 60_000)
            && l.burst == burst && l.burstMs == burst * l.interval
  {
    if 1 <= rate <= 60_000 {
      DivBounds(MINUTE, rate);
      MulAdd(MINUTE / rate, 1, rate);
    }
  }
}
