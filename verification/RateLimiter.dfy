/** The middleware around the GCRA script: the policy table, the arithmetic that
    turns a policy into script arguments, and the response headers. */
module RateLimiter {
  import opened Wrappers
  import opened Arith
  import opened Gcra

  datatype Scope = ByUser | ByIp

  datatype Policy = Policy(ratePerMinute: int, burst: int, scope: Scope)

  datatype Route = Route(httpMethod: string, prefix: string, policy: Policy)

  const POLICIES: seq<Route> := [
    Route("", "/api/v1/auth/login", Policy(5, 2, ByIp)),
    Route("", "/api/v1/auth/register", Policy(3, 1, ByIp)),
    Route("", "/api/v1/auth/password-reset/", Policy(3, 1, ByIp)),
    Route("POST", "/api/v1/chat/stream", Policy(20, 5, ByUser)),
    Route("POST", "/api/v1/chat", Policy(20, 5, ByUser)),
    Route("", "/api/v1/insights/requests", Policy(10, 3, ByUser)),
    Route("POST", "/api/v1/ingestion/parse-receipt", Policy(10, 2, ByUser))
  ]

  const DEFAULT: Policy := Policy(120, 30, ByUser)

  const SKIP: set<string> := {"/health", "/ready", "/metrics", "/docs", "/redoc", "/openapi.json"}

  function Upper(s: string): string {
    seq(|s|, i requires 0 <= i < |s| => if 'a' <= s[i] <= 'z' then s[i] - 'a' + 'A' else s[i])
  }

  predicate Matches(e: Route, path: string, httpMethod: string) {
    e.prefix <= path && (e.httpMethod == "" || e.httpMethod == Upper(httpMethod))
  }

  function FirstMatch(entries: seq<Route>, path: string, httpMethod: string): Policy {
    if entries == [] then DEFAULT
    else if Matches(entries[0], path, httpMethod) then entries[0].policy
    else FirstMatch(entries[1..], path, httpMethod)
  }

  function ResolvePolicy(path: string, httpMethod: string): Policy {
    FirstMatch(POLICIES, path, httpMethod)
  }

  /** The policy is that of the first entry that matches; the default when none of them does. */
  lemma {:induction false} FirstMatchWins(entries: seq<Route>, path: string, httpMethod: string, i: nat)
    requires i <= |entries| && forall j :: 0 <= j < i ==> !Matches(entries[j], path, httpMethod)
    requires i < |entries| ==> Matches(entries[i], path, httpMethod)
    ensures FirstMatch(entries, path, httpMethod) == if i < |entries| then entries[i].policy else DEFAULT
  {
    if i > 0 {
      assert !Matches(entries[0], path, httpMethod);
      FirstMatchWins(entries[1..], path, httpMethod, i - 1);
    }
  }

  lemma {:induction false} ResolvedIsListed(entries: seq<Route>, path: string, httpMethod: string)
    requires forall e :: e in entries ==> InRange(e.policy)
    ensures InRange(FirstMatch(entries, path, httpMethod))
  {
    if entries != [] {
      assert entries[0] in entries;
      ResolvedIsListed(entries[1..], path, httpMethod);
    }
  }

  predicate InRange(p: Policy) {
    1 <= p.ratePerMinute <= MINUTE && MINUTE % p.ratePerMinute == 0 && p.burst >= 1
  }

  lemma {:induction false} PoliciesInRange(path: string, httpMethod: string)
    ensures InRange(ResolvePolicy(path, httpMethod))
  {
    assert forall e :: e in POLICIES ==> InRange(e.policy);
    ResolvedIsListed(POLICIES, path, httpMethod);
  }

  /** Whatever the endpoint, any minute lets at most its rate plus its burst through. */
  lemma {:induction false} EveryEndpointIsBounded(path: string, httpMethod: string)
    ensures var p := ResolvePolicy(path, httpMethod);
            && ValidLimit(LimitOf(p.ratePerMinute, p.burst))
            && MinuteBoundHolds(p.ratePerMinute, p.burst)
  {
    PoliciesInRange(path, httpMethod);
    var p := ResolvePolicy(path, httpMethod);
    MinuteBoundIff(p.ratePerMinute, p.burst);
  }

  lemma {:induction false} MatchMeans(e: Route, path: string, httpMethod: string)
    ensures Matches(e, path, httpMethod) <==>
              && |e.prefix| <= |path| && (forall i :: 0 <= i < |e.prefix| ==> path[i] == e.prefix[i])
              && (e.httpMethod == ""
                  || (|e.httpMethod| == |httpMethod|
                      && forall i :: 0 <= i < |httpMethod| ==>
                           e.httpMethod[i] == if 'a' <= httpMethod[i] <= 'z'
                                              then (httpMethod[i] as int - 32) as char else httpMethod[i]))
  {
    if e.httpMethod == Upper(httpMethod) {
      assert forall i :: 0 <= i < |httpMethod| ==> Upper(httpMethod)[i] == e.httpMethod[i];
    }
  }

  /** Two prefixes that differ somewhere do not both begin a path. */
  lemma {:induction false} Clash(a: string, b: string, path: string, k: nat)
    requires k < |a| && k < |b| && a[k] != b[k] && a <= path
    ensures !(b <= path)
  {
  }

  /** The table: sensitive endpoints by address and tight, chat and ingestion for writing
      requests only, everything else by the default. */
  lemma {:induction false} Table()
    ensures |POLICIES| == 7 && DEFAULT == Policy(120, 30, ByUser)
    ensures POLICIES[0] == Route("", "/api/v1/auth/login", Policy(5, 2, ByIp))
    ensures POLICIES[1] == Route("", "/api/v1/auth/register", Policy(3, 1, ByIp))
    ensures POLICIES[2] == Route("", "/api/v1/auth/password-reset/", Policy(3, 1, ByIp))
    ensures POLICIES[3] == Route("POST", "/api/v1/chat/stream", Policy(20, 5, ByUser))
    ensures POLICIES[4] == Route("POST", "/api/v1/chat", Policy(20, 5, ByUser))
    ensures POLICIES[5] == Route("", "/api/v1/insights/requests", Policy(10, 3, ByUser))
    ensures POLICIES[6] == Route("POST", "/api/v1/ingestion/parse-receipt", Policy(10, 2, ByUser))
  {
  }

  /** Where two entries of the table first differ; entries 3 and 4 do not. */
  function DiffersAt(i: nat, j: nat): nat {
    if i < 3 && j < 3 then 13 else if i in {5, 6} && j in {5, 6} then 10 else 8
  }

  lemma {:induction false} EntriesDiffer(i: nat, j: nat)
    requires i < j < |POLICIES| && (i, j) != (3, 4)
    ensures var k := DiffersAt(i, j);
            var a, b := POLICIES[i].prefix, POLICIES[j].prefix;
            k < |a| && k < |b| && a[k] != b[k]
  {
    Table();
  }

  /** The order of the table does not matter: whichever entry matches, its policy applies. */
  lemma {:induction false} TableIsUnambiguous(path: string, httpMethod: string, i: nat)
    requires i < |POLICIES| && Matches(POLICIES[i], path, httpMethod)
    ensures ResolvePolicy(path, httpMethod) == POLICIES[i].policy
  {
    if i == 4 && Matches(POLICIES[3], path, httpMethod) {
      NoneBefore(path, httpMethod, 3);
      FirstMatchWins(POLICIES, path, httpMethod, 3);
      Table();
    } else {
      NoneBefore(path, httpMethod, i);
      FirstMatchWins(POLICIES, path, httpMethod, i);
    }
  }

  lemma {:induction false} NoneBefore(path: string, httpMethod: string, i: nat)
    requires i < |POLICIES| && Matches(POLICIES[i], path, httpMethod)
    requires i == 4 ==> !Matches(POLICIES[3], path, httpMethod)
    ensures forall j :: 0 <= j < i ==> !Matches(POLICIES[j], path, httpMethod)
  {
    forall j | 0 <= j < i ensures !Matches(POLICIES[j], path, httpMethod) {
      if (j, i) != (3, 4) {
        EntriesDiffer(j, i);
        Clash(POLICIES[i].prefix, POLICIES[j].prefix, path, DiffersAt(j, i));
      }
    }
  }

  // ---------- the middleware ----------

  datatype Response =
    | Passed                                                          // no limit applied, or Redis is down
    | Served(limit: int, remaining: int, resetSeconds: int)
    | TooManyRequests(limit: int, retryAfterSeconds: int, resetSeconds: int)

  class Middleware {
    var keys: map<string, Gcra.Entry>

    function KeyState(key: string): Key
      reads this
    {
      if key in keys then Some(keys[key]) else None
    }

    /** The Lua script, statement by statement, on one key. */
    method Script(key: string, now: int, interval: int, burst: int) returns (a: Answer)
      requires interval >= 1 && burst >= 0
      modifies this
      ensures forall n :: n >= 0 ==> a == Decide(old(KeyState(key)), now, Limit(interval, n, burst)).0
      ensures forall n :: n >= 0 ==> KeyState(key) == Decide(old(KeyState(key)), now, Limit(interval, n, burst)).1
      ensures forall k :: k != key ==> KeyState(k) == old(KeyState(k))
    {
      var tat := now;
      if key in keys && now <= keys[key].expireAt { tat := keys[key].tat; }
      if tat < now { tat := now; }
      var newTat := tat + interval;
      var allowAt := newTat - burst;
      if now >= allowAt {
        var ttl := burst + interval;
        keys := keys[key := Gcra.Entry(newTat, now + ttl)];
        var remaining := (burst - (newTat - now)) / interval;
        if remaining < 0 { remaining := 0; }
        return Answer(true, remaining, newTat - now, 0);
      } else {
        var retryAfterMs := allowAt - now;
        return Answer(false, 0, tat - now, retryAfterMs);
      }
    }

    /** `__call__`: skip, refuse the unidentified, ask the script, or fail open. */
    method Call(path: string, httpMethod: string, key: Option<string>, now: int, redisUp: bool) returns (r: Response)
      modifies this
      ensures r == Passed <==> path in {"/health", "/ready", "/metrics", "/docs", "/redoc", "/openapi.json"}
                               || (key.Some? && !redisUp)
      ensures path !in SKIP && key.None? ==> r == TooManyRequests(ResolvePolicy(path, httpMethod).ratePerMinute, 60, 60)
      ensures r == Passed || key.None? ==> keys == old(keys)
      ensures path !in SKIP && key.Some? && redisUp ==>
                var p := ResolvePolicy(path, httpMethod);
                var l := LimitOf(p.ratePerMinute, p.burst);
                && Calibrated(l)
                && var (a, k') := Decide(old(KeyState(key.value)), now, l);
                && KeyState(key.value) == k'
                && (forall k :: k != key.value ==> KeyState(k) == old(KeyState(k)))
                && r == if a.allowed then Served(p.ratePerMinute, a.remaining, CeilSeconds(a.resetMs))
                        else TooManyRequests(p.ratePerMinute, CeilSeconds(a.retryAfterMs), CeilSeconds(a.resetMs))
    {
      if path in SKIP { return Passed; }
      var policy := ResolvePolicy(path, httpMethod);
      if key.None? {
        return TooManyRequests(policy.ratePerMinute, CeilSeconds(60_000), CeilSeconds(60_000));
      }
      if !redisUp { return Passed; }
      PoliciesInRange(path, httpMethod);
      var interval := MINUTE / (if policy.ratePerMinute < 1 then 1 else policy.ratePerMinute);
      FloorFacts(policy.ratePerMinute);
      MulLe(0, policy.burst, interval);
      var a := Script(key.value, now, interval, policy.burst * interval);
      if a.allowed {
        return Served(policy.ratePerMinute, a.remaining, CeilSeconds(a.resetMs));
      }
      return TooManyRequests(policy.ratePerMinute, CeilSeconds(a.retryAfterMs), CeilSeconds(a.resetMs));
    }
  }
}
