/** Login sessions in Redis: one expiring key per session and one sorted set of session
    ids per user, scored by expiry. Times are microseconds. */
module SessionStore {
  import opened Wrappers

  type SessionId = string
  type UserId = string

  datatype Session = Session(id: SessionId, user: UserId, expiresAt: nat, userAgent: string, ip: string)

  /** A key lives up to and including `expireAt`; a dead key reads as absent. */
  datatype Stored = Stored(session: Session, expireAt: int)

  datatype Store = Store(keys: map<SessionId, Stored>, index: map<UserId, map<SessionId, nat>>)

  const SECOND := 1_000_000

  // ---------- the operations on values ----------

  /** `int(total_seconds())`, which truncates toward zero. */
  function Ttl(expiresAt: nat, now: nat): (r: int)
    ensures r > 0 <==> expiresAt >= now + SECOND
    ensures r > 0 ==> now + r * SECOND <= expiresAt < now + (r + 1) * SECOND
  {
    if expiresAt >= now then (expiresAt - now) / SECOND else -((now - expiresAt) / SECOND)
  }

  function Indexed(s: Store, u: UserId): map<SessionId, nat> {
    if u in s.index then s.index[u] else map[]
  }

  function Trimmed(scores: map<SessionId, nat>, now: nat): map<SessionId, nat> {
    map sid | sid in scores && !(0 <= scores[sid] <= now) :: scores[sid]
  }

  function Read(s: Store, sid: SessionId, now: nat): Option<Session> {
    if sid in s.keys && now <= s.keys[sid].expireAt then Some(s.keys[sid].session) else None
  }

  /** What `get` returns. */
  function Got(s: Store, sid: SessionId, u: UserId, now: nat): Option<Session> {
    match Read(s, sid, now)
    case None => None
    case Some(session) => if session.user != u || session.expiresAt <= now then None else Some(session)
  }

  datatype Op =
    | Save(session: Session, at: nat)
    | Revoke(sid: SessionId, user: UserId, at: nat)
    | RevokeAll(user: UserId, at: nat)

  function Saved(s: Store, session: Session, now: nat): Store {
    var ttl := Ttl(session.expiresAt, now);
    if ttl <= 0 then s
    else Store(s.keys[session.id := Stored(session, now + ttl * SECOND)],
               s.index[session.user := Trimmed(Indexed(s, session.user)[session.id := session.expiresAt], now)])
  }

  /** The second half of `revoke_all`: drop these keys and the user's index. */
  function Dropped(s: Store, u: UserId, sids: set<SessionId>): Store {
    Store(s.keys - sids, s.index - {u})
  }

  function Apply(s: Store, op: Op): Store {
    match op
    case Save(session, at) => Saved(s, session, at)
    case Revoke(sid, u, _) =>
      Store(s.keys - {sid}, if u in s.index then s.index[u := s.index[u] - {sid}] else s.index)
    case RevokeAll(u, _) =>
      var sids := Indexed(s, u).Keys;
      if sids == {} then s else Dropped(s, u, sids)
  }

  /** The members with a score of at least `min`, in score order. */
  ghost predicate IsRange(sids: seq<SessionId>, scores: map<SessionId, nat>, min: nat) {
    && (forall sid :: sid in sids <==> sid in scores && scores[sid] >= min)
    && (forall i, j :: 0 <= i < j < |sids| ==> sids[i] != sids[j] && scores[sids[i]] <= scores[sids[j]])
  }

  /** The sessions behind these ids, dead keys skipped. */
  function ReadAll(s: Store, sids: seq<SessionId>, now: nat): seq<Session> {
    if sids == [] then []
    else
      var last := Read(s, sids[|sids| - 1], now);
      ReadAll(s, sids[..|sids| - 1], now) + (if last.Some? then [last.value] else [])
  }

  /** A possible answer of `list_active`: ids of equal score may come in any order. */
  ghost predicate IsListing(r: seq<Session>, s: Store, u: UserId, now: nat) {
    exists sids: seq<SessionId> :: IsRange(sids, Indexed(s, u), now) && r == ReadAll(s, sids, now)
  }

  /** The session stands behind an entry of the user's index with a score of at least now, and its key is alive. */
  predicate InListing(s: Store, u: UserId, now: nat, session: Session) {
    u in s.index && exists sid :: sid in s.index[u] && s.index[u][sid] >= now
                                  && sid in s.keys && now <= s.keys[sid].expireAt && s.keys[sid].session == session
  }

  lemma {:induction false} RangeHas(s: Store, sids: seq<SessionId>, u: UserId, now: nat, session: Session)
    requires IsRange(sids, Indexed(s, u), now)
    ensures (exists i :: 0 <= i < |sids| && Read(s, sids[i], now) == Some(session)) <==> InListing(s, u, now, session)
  {
    if i :| 0 <= i < |sids| && Read(s, sids[i], now) == Some(session) {
      assert sids[i] in sids;
    }
    if InListing(s, u, now, session) {
      var sid :| sid in s.index[u] && s.index[u][sid] >= now
                 && sid in s.keys && now <= s.keys[sid].expireAt && s.keys[sid].session == session;
      assert sid in sids;
      var i :| 0 <= i < |sids| && sids[i] == sid;
      assert Read(s, sids[i], now) == Some(session);
    }
  }

  lemma {:induction false} ReadAllHas(s: Store, sids: seq<SessionId>, now: nat, session: Session)
    ensures session in ReadAll(s, sids, now) <==> exists i :: 0 <= i < |sids| && Read(s, sids[i], now) == Some(session)
  {
    if sids != [] {
      var n := |sids| - 1;
      ReadAllHas(s, sids[..n], now, session);
      if i :| 0 <= i < |sids| && Read(s, sids[i], now) == Some(session) {
        if i < n {
          assert sids[..n][i] == sids[i];
        }
      }
    }
  }

  lemma {:induction false} ListingHas(s: Store, sids: seq<SessionId>, u: UserId, now: nat)
    requires IsRange(sids, Indexed(s, u), now)
    ensures forall session :: session in ReadAll(s, sids, now) <==> InListing(s, u, now, session)
  {
    forall session ensures session in ReadAll(s, sids, now) <==> InListing(s, u, now, session) {
      ReadAllHas(s, sids, now, session);
      RangeHas(s, sids, u, now, session);
    }
  }

  method RangeByScore(scores: map<SessionId, nat>, min: nat) returns (sids: seq<SessionId>)
    ensures IsRange(sids, scores, min)
  {
    var left := set sid | sid in scores && scores[sid] >= min;
    sids := [];
    while left != {}
      invariant forall sid :: sid in scores && scores[sid] >= min <==> sid in left || sid in sids
      invariant forall sid :: sid in sids ==> sid !in left
      invariant forall i, j :: 0 <= i < j < |sids| ==> sids[i] != sids[j] && scores[sids[i]] <= scores[sids[j]]
      invariant forall i, sid :: 0 <= i < |sids| && sid in left ==> scores[sids[i]] <= scores[sid]
      decreases |left|
    {
      var sid := Lowest(left, scores);
      left := left - {sid};
      sids := sids + [sid];
    }
  }

  method Lowest(ids: set<SessionId>, scores: map<SessionId, nat>) returns (low: SessionId)
    requires ids != {} && ids <= scores.Keys
    ensures low in ids && forall sid :: sid in ids ==> scores[low] <= scores[sid]
  {
    low :| low in ids;
    var left := ids - {low};
    while left != {}
      invariant left <= ids && low in ids
      invariant forall sid :: sid in ids - left ==> scores[low] <= scores[sid]
      decreases |left|
    {
      var sid :| sid in left;
      if scores[sid] < scores[low] { low := sid; }
      left := left - {sid};
    }
  }

  // ---------- the store ----------

  class RedisSessionStore {
    var keys: map<SessionId, Stored>
    var index: map<UserId, map<SessionId, nat>>

    function Contents(): Store
      reads this
    {
      Store(keys, index)
    }

    constructor ()
      ensures Contents() == Store(map[], map[])
    {
      keys, index := map[], map[];
    }

    method SaveSession(session: Session, now: nat)
      modifies this
      ensures session.expiresAt < now + 1_000_000 ==> keys == old(keys) && index == old(index)
      ensures session.expiresAt >= now + 1_000_000 ==>
                && keys == old(keys)[session.id :=
                     Stored(session, now + (session.expiresAt - now) / 1_000_000 * 1_000_000)]
                && index.Keys == old(index).Keys + {session.user}
                && (forall u :: u in old(index) && u != session.user ==> index[u] == old(index)[u])
                && index[session.user].Keys
                   == (if session.user in old(index)
                       then set sid | sid in old(index)[session.user] && old(index)[session.user][sid] > now
                                      && sid != session.id
                       else {}) + {session.id}
                && forall sid :: sid in index[session.user] ==>
                     index[session.user][sid] == if sid == session.id then session.expiresAt
                                                 else old(index)[session.user][sid]
      ensures Contents() == Apply(old(Contents()), Save(session, now))
    {
      var ttl := Ttl(session.expiresAt, now);
      if ttl <= 0 { return; }
      var u := session.user;
      keys := keys[session.id := Stored(session, now + ttl * SECOND)];
      var scores := if u in index then index[u] else map[];
      scores := scores[session.id := session.expiresAt];
      index := index[u := Trimmed(scores, now)];
    }

    method Get(sid: SessionId, u: UserId, now: nat) returns (r: Option<Session>)
      ensures r == if sid in keys && now <= keys[sid].expireAt && keys[sid].session.user == u
                      && now < keys[sid].session.expiresAt then Some(keys[sid].session) else None
      ensures r == Got(Contents(), sid, u, now)
    {
      r := Read(Contents(), sid, now);
      if r.None? { return None; }
      if r.value.user != u { return None; }
      if r.value.expiresAt <= now { return None; }
    }

    method RevokeSession(sid: SessionId, u: UserId, now: nat)
      modifies this
      ensures keys == old(keys) - {sid} && index.Keys == old(index).Keys
      ensures forall w :: w in index ==> index[w] == if w == u then old(index)[w] - {sid} else old(index)[w]
      ensures Contents() == Apply(old(Contents()), Revoke(sid, u, now))
    {
      keys := keys - {sid};
      if u in index {
        index := index[u := index[u] - {sid}];
      }
    }

    /** In the order of the scores, which are the expiries; a dead key leaves no gap. */
    method ListActive(u: UserId, now: nat) returns (r: seq<Session>, ghost sids: seq<SessionId>)
      ensures forall sid :: sid in sids <==> u in index && sid in index[u] && index[u][sid] >= now
      ensures forall i :: 0 <= i < |sids| ==> sids[i] in Indexed(Contents(), u)
      ensures forall i, j :: 0 <= i < j < |sids| ==>
                sids[i] != sids[j] && Indexed(Contents(), u)[sids[i]] <= Indexed(Contents(), u)[sids[j]]
      ensures r == ReadAll(Contents(), sids, now)
      ensures IsListing(r, Contents(), u, now)
      ensures forall session :: session in r <==>
                u in index && exists sid :: sid in index[u] && index[u][sid] >= now
                                            && sid in keys && now <= keys[sid].expireAt && keys[sid].session == session
    {
      var range := RangeByScore(if u in index then index[u] else map[], now);
      sids := range;
      r := ReadEach(range, now);
      ListingHas(Contents(), sids, u, now);
    }

    /** The keys of these ids that are still alive. */
    method ReadEach(sids: seq<SessionId>, now: nat) returns (r: seq<Session>)
      ensures r == ReadAll(Contents(), sids, now)
    {
      r := [];
      assert sids[..0] == [];
      for n := 0 to |sids|
        invariant r == ReadAll(Contents(), sids[..n], now)
      {
        assert sids[..n + 1][..n] == sids[..n];
        var session := Read(Contents(), sids[n], now);
        if session.Some? { r := r + [session.value]; }
      }
      assert sids[..|sids|] == sids;
    }

    /** Both round trips of `revoke_all` with nothing in between. */
    method RevokeAllSessions(u: UserId, now: nat)
      modifies this
      ensures u !in index || index[u] == map[]
      ensures forall w :: w != u ==> (w in index <==> w in old(index)) && (w in index ==> index[w] == old(index)[w])
      ensures forall sid :: sid in keys <==> sid in old(keys) && !(u in old(index) && sid in old(index)[u])
      ensures forall sid :: sid in keys ==> keys[sid] == old(keys)[sid]
      ensures Contents() == Apply(old(Contents()), RevokeAll(u, now))
    {
      var sids := if u in index then index[u].Keys else {};
      if sids == {} {
        return;
      }
      DropAll(u, sids);
    }

    method DropAll(u: UserId, sids: set<SessionId>)
      modifies this
      ensures Contents() == Dropped(old(Contents()), u, sids)
    {
      var left := sids;
      while left != {}
        invariant left <= sids
        invariant keys == old(keys) - (sids - left) && index == old(index)
        decreases |left|
      {
        var sid :| sid in left;
        keys := keys - {sid};
        left := left - {sid};
      }
      index := index - {u};
    }
  }

  // ---------- what every run keeps ----------

  /** At time `t`: every unexpired session stands in its owner's index under its expiry,
      and no key outlives its session. */
  ghost predicate Inv(s: Store, t: nat) {
    forall sid :: sid in s.keys ==> KeyInv(s, sid, t)
  }

  predicate KeyInv(s: Store, sid: SessionId, t: nat)
    requires sid in s.keys
  {
    var k := s.keys[sid];
    && k.session.id == sid
    && k.expireAt <= k.session.expiresAt
    && (t < k.session.expiresAt ==>
          sid in Indexed(s, k.session.user) && Indexed(s, k.session.user)[sid] == k.session.expiresAt)
  }

  /** Times never go back. */
  predicate Ordered(ops: seq<Op>, from: nat) {
    ops == [] || (from <= ops[0].at && Ordered(ops[1..], ops[0].at))
  }

  function Run(s: Store, ops: seq<Op>): Store
    decreases |ops|
  {
    if ops == [] then s else Run(Apply(s, ops[0]), ops[1..])
  }

  function Clock(ops: seq<Op>, from: nat): nat {
    if ops == [] then from else Clock(ops[1..], ops[0].at)
  }

  lemma {:induction false} InvAges(s: Store, t: nat, now: nat)
    requires Inv(s, t) && t <= now
    ensures Inv(s, now)
  {
    forall sid | sid in s.keys ensures KeyInv(s, sid, now) {
      assert KeyInv(s, sid, t);
    }
  }

  lemma {:induction false} StepKeepsInv(s: Store, op: Op)
    requires Inv(s, op.at)
    ensures Inv(Apply(s, op), op.at)
  {
    var after := Apply(s, op);
    forall sid | sid in after.keys ensures KeyInv(after, sid, op.at) {
      if sid in s.keys {
        assert KeyInv(s, sid, op.at);
      }
    }
  }

  lemma {:induction false} RunKeepsInv(s: Store, ops: seq<Op>, t: nat)
    requires Inv(s, t) && Ordered(ops, t)
    ensures Inv(Run(s, ops), Clock(ops, t))
    decreases |ops|
  {
    if ops != [] {
      InvAges(s, t, ops[0].at);
      StepKeepsInv(s, ops[0]);
      RunKeepsInv(Apply(s, ops[0]), ops[1..], ops[0].at);
    }
  }

  /** After any run, at any later time: whatever `get` returns is in its owner's index
      under its own expiry, and every listing of the owner's shows it. */
  lemma {:induction false} GotIsIndexedAndListed(ops: seq<Op>, sid: SessionId, u: UserId, now: nat,
      listing: seq<Session>)
    requires Ordered(ops, 0) && Clock(ops, 0) <= now
    requires var s := Run(Store(map[], map[]), ops); Got(s, sid, u, now).Some? && IsListing(listing, s, u, now)
    ensures var s := Run(Store(map[], map[]), ops);
            var session := Got(s, sid, u, now).value;
            && sid in Indexed(s, u) && Indexed(s, u)[sid] == session.expiresAt
            && session in listing
  {
    var s := Run(Store(map[], map[]), ops);
    RunKeepsInv(Store(map[], map[]), ops, 0);
    InvAges(s, Clock(ops, 0), now);
    assert KeyInv(s, sid, now);
    var sids: seq<SessionId> :| IsRange(sids, Indexed(s, u), now) && listing == ReadAll(s, sids, now);
    assert sid in sids;
    ReadAllHas(s, sids, now, Got(s, sid, u, now).value);
  }

  lemma {:induction false} OneMoreRead(s: Store, sids: seq<SessionId>, sid: SessionId, now: nat)
    ensures ReadAll(s, sids + [sid], now)
         == ReadAll(s, sids, now)
            + if sid in s.keys && now <= s.keys[sid].expireAt then [s.keys[sid].session] else []
    ensures sids == [] ==> ReadAll(s, sids, now) == []
  {
    assert (sids + [sid])[..|sids|] == sids;
    assert ReadAll(s, sids, now) + [] == ReadAll(s, sids, now);
  }

  /** The other direction: a listed session of the user's own resolves exactly if it has
      not reached its expiry; the listing keeps it for the instant `now == expires_at`. */
  lemma {:induction false} ListedResolvesIff(s: Store, u: UserId, now: nat, listing: seq<Session>, session: Session)
    requires Inv(s, now) && IsListing(listing, s, u, now) && session in listing && session.user == u
    ensures now <= session.expiresAt
    ensures Got(s, session.id, u, now) == (if now == session.expiresAt then None else Some(session))
  {
    var sids: seq<SessionId> :| IsRange(sids, Indexed(s, u), now) && listing == ReadAll(s, sids, now);
    ReadAllHas(s, sids, now, session);
    var i :| 0 <= i < |sids| && Read(s, sids[i], now) == Some(session);
    assert KeyInv(s, sids[i], now);
  }

  /** That instant exists: a session of ten seconds is listed at its expiry, and does not resolve. */
  lemma {:induction false} ListedAtItsExpiry()
    ensures var session := Session("a", "u", 10 * SECOND, "", "");
            var s := Run(Store(map[], map[]), [Save(session, 0)]);
            && IsListing([session], s, "u", 10 * SECOND) && Got(s, "a", "u", 10 * SECOND) == None
            && Got(s, "a", "u", 10 * SECOND - 1) == Some(session)
  {
    var session := Session("a", "u", 10 * SECOND, "", "");
    var s := Apply(Store(map[], map[]), Save(session, 0));
    assert Run(Store(map[], map[]), [Save(session, 0)]) == s;
    assert IsRange(["a"], Indexed(s, "u"), 10 * SECOND);
    assert ["a"][..0] == [];
    assert ReadAll(s, ["a"], 10 * SECOND) == [session];
  }

  // ---------- revoking ----------

  /** No session of u that has not expired. */
  ghost predicate Gone(s: Store, u: UserId, t: nat) {
    && Indexed(s, u) == map[]
    && forall sid :: sid in s.keys && s.keys[sid].session.user == u ==> s.keys[sid].session.expiresAt <= t
  }

  lemma {:induction false} EmptyOrHasMember(sids: seq<SessionId>)
    ensures sids == [] || exists sid :: sid in sids
  {
    if sids != [] {
      assert sids[0] in sids;
    }
  }

  lemma {:induction false} GoneMeansLoggedOut(s: Store, u: UserId, t: nat, now: nat, sid: SessionId,
      listing: seq<Session>)
    requires Gone(s, u, t) && t <= now && IsListing(listing, s, u, now)
    ensures Got(s, sid, u, now) == None && listing == []
  {
    var sids: seq<SessionId> :| IsRange(sids, Indexed(s, u), now) && listing == ReadAll(s, sids, now);
    EmptyOrHasMember(sids);
  }

  predicate NoSaveFor(ops: seq<Op>, u: UserId) {
    forall i :: 0 <= i < |ops| && ops[i].Save? ==> ops[i].session.user != u
  }

  lemma {:induction false} StepKeepsGone(s: Store, op: Op, u: UserId, t: nat)
    requires Gone(s, u, t) && (op.Save? ==> op.session.user != u)
    ensures Gone(Apply(s, op), u, t)
  {
  }

  lemma {:induction false} RunKeepsGone(s: Store, ops: seq<Op>, u: UserId, t: nat)
    requires Gone(s, u, t) && NoSaveFor(ops, u)
    ensures Gone(Run(s, ops), u, t)
    decreases |ops|
  {
    if ops != [] {
      StepKeepsGone(s, ops[0], u, t);
      assert forall i :: 0 <= i < |ops[1..]| ==> ops[1..][i] == ops[i + 1];
      RunKeepsGone(Apply(s, ops[0]), ops[1..], u, t);
    }
  }

  lemma {:induction false} RunAppend(s: Store, a: seq<Op>, b: seq<Op>)
    ensures Run(s, a + b) == Run(Run(s, a), b)
    decreases |a|
  {
    if a == [] {
      assert a + b == b;
    } else {
      assert (a + b)[1..] == a[1..] + b;
      RunAppend(Apply(s, a[0]), a[1..], b);
    }
  }

  /** After any history, `revoke_all(u)` logs u out everywhere, and u stays logged out
      through any later operations until a session is saved for u again. */
  lemma {:induction false} RevokeAllLogsOut(before: seq<Op>, u: UserId, at: nat, later: seq<Op>, now: nat,
      sid: SessionId, listing: seq<Session>)
    requires Ordered(before, 0) && Clock(before, 0) <= at
    requires NoSaveFor(later, u) && Ordered(later, at) && Clock(later, at) <= now
    requires IsListing(listing, Run(Store(map[], map[]), before + ([RevokeAll(u, at)] + later)), u, now)
    ensures Got(Run(Store(map[], map[]), before + ([RevokeAll(u, at)] + later)), sid, u, now) == None && listing == []
  {
    var empty := Store(map[], map[]);
    var s := Run(empty, before);
    RunKeepsInv(empty, before, 0);
    InvAges(s, Clock(before, 0), at);
    var after := Apply(s, RevokeAll(u, at));
    forall id | id in after.keys && after.keys[id].session.user == u ensures after.keys[id].session.expiresAt <= at {
      assert KeyInv(s, id, at);
    }
    RunKeepsGone(after, later, u, at);
    ClockGrows(later, at);
    RunAppend(empty, before, [RevokeAll(u, at)] + later);
    assert ([RevokeAll(u, at)] + later)[1..] == later;
    GoneMeansLoggedOut(Run(after, later), u, at, now, sid, listing);
  }

  // ---------- revoking one session ----------

  /** No key of sid. */
  predicate KeyGone(s: Store, sid: SessionId) {
    sid !in s.keys
  }

  predicate NoSaveOf(ops: seq<Op>, sid: SessionId) {
    forall i :: 0 <= i < |ops| && ops[i].Save? ==> ops[i].session.id != sid
  }

  lemma {:induction false} RunKeepsKeyGone(s: Store, ops: seq<Op>, sid: SessionId)
    requires KeyGone(s, sid) && NoSaveOf(ops, sid)
    ensures KeyGone(Run(s, ops), sid)
    decreases |ops|
  {
    if ops != [] {
      assert forall i :: 0 <= i < |ops[1..]| ==> ops[1..][i] == ops[i + 1];
      RunKeepsKeyGone(Apply(s, ops[0]), ops[1..], sid);
    }
  }

  /** Every session stands under its own id. */
  lemma {:induction false} RunKeepsIds(s: Store, ops: seq<Op>)
    requires forall sid :: sid in s.keys ==> s.keys[sid].session.id == sid
    ensures forall sid :: sid in Run(s, ops).keys ==> Run(s, ops).keys[sid].session.id == sid
    decreases |ops|
  {
    if ops != [] {
      RunKeepsIds(Apply(s, ops[0]), ops[1..]);
    }
  }

  /** Revoking a session logs it out: after any history, the revoked id resolves for nobody and
      stands in no listing, through any later operations, until it is saved again. */
  lemma {:induction false} RevokeLogsOut(before: seq<Op>, sid: SessionId, u: UserId, at: nat, later: seq<Op>, now: nat,
      w: UserId, listing: seq<Session>)
    requires NoSaveOf(later, sid)
    requires IsListing(listing, Run(Store(map[], map[]), before + ([Revoke(sid, u, at)] + later)), w, now)
    ensures Got(Run(Store(map[], map[]), before + ([Revoke(sid, u, at)] + later)), sid, w, now) == None
    ensures forall session :: session in listing ==> session.id != sid
  {
    var empty := Store(map[], map[]);
    var ops := before + ([Revoke(sid, u, at)] + later);
    var s := Run(empty, ops);
    RunAppend(empty, before, [Revoke(sid, u, at)] + later);
    assert ([Revoke(sid, u, at)] + later)[1..] == later;
    RunKeepsKeyGone(Apply(Run(empty, before), Revoke(sid, u, at)), later, sid);
    RunKeepsIds(empty, ops);
    var sids: seq<SessionId> :| IsRange(sids, Indexed(s, w), now) && listing == ReadAll(s, sids, now);
    forall session | session in listing ensures session.id != sid {
      ReadAllHas(s, sids, now, session);
    }
  }

  /** And it touches nobody else: every other session resolves exactly as before. */
  lemma {:induction false} RevokeTouchesNoOther(s: Store, sid: SessionId, u: UserId, at: nat, other: SessionId,
      w: UserId, now: nat)
    requires other != sid
    ensures Got(Apply(s, Revoke(sid, u, at)), other, w, now) == Got(s, other, w, now)
    ensures other in Indexed(Apply(s, Revoke(sid, u, at)), w) <==> other in Indexed(s, w)
    ensures other in Indexed(s, w) ==> Indexed(Apply(s, Revoke(sid, u, at)), w)[other] == Indexed(s, w)[other]
  {
  }

  lemma {:induction false} ClockGrows(ops: seq<Op>, t: nat)
    requires Ordered(ops, t)
    ensures t <= Clock(ops, t)
  {
    if ops != [] {
      ClockGrows(ops[1..], ops[0].at);
    }
  }

  /** Every unexpired session of u is among these. */
  predicate Covers(sids: set<SessionId>, s: Store, u: UserId, t: nat) {
    forall sid :: sid in s.keys && s.keys[sid].session.user == u && t < s.keys[sid].session.expiresAt ==> sid in sids
  }

  /** The two halves of `revoke_all` are separate round trips. If other operations come
      between reading the ids and dropping them, the invariant survives exactly if every
      unexpired session of u is among the ids read. */
  lemma {:induction false} LateDropKeepsInvIff(s: Store, u: UserId, sids: set<SessionId>, t: nat)
    requires Inv(s, t)
    ensures Inv(Dropped(s, u, sids), t) <==> Covers(sids, s, u, t)
  {
    var after := Dropped(s, u, sids);
    if Covers(sids, s, u, t) {
      forall sid | sid in after.keys ensures KeyInv(after, sid, t) {
        assert KeyInv(s, sid, t);
      }
    } else {
      var sid :| sid in s.keys && s.keys[sid].session.user == u && t < s.keys[sid].session.expiresAt && sid !in sids;
      assert !KeyInv(after, sid, t);
    }
  }

  /** A login between the two halves does escape: it resolves, but no listing shows it. */
  lemma {:induction false} LoginDuringRevokeAllEscapes()
    ensures var first := Session("a", "u", 10 * SECOND, "", "");
            var second := Session("b", "u", 10 * SECOND, "", "");
            var s := Run(Store(map[], map[]), [Save(first, 0)]);
            var sids := Indexed(s, "u").Keys;
            var after := Dropped(Apply(s, Save(second, 0)), "u", sids);
            Got(after, "b", "u", 0) == Some(second) && IsListing([], after, "u", 0)
  {
    var first := Session("a", "u", 10 * SECOND, "", "");
    var second := Session("b", "u", 10 * SECOND, "", "");
    var s := Apply(Store(map[], map[]), Save(first, 0));
    assert Run(Store(map[], map[]), [Save(first, 0)]) == s;
    var after := Dropped(Apply(s, Save(second, 0)), "u", Indexed(s, "u").Keys);
    assert IsRange([], Indexed(after, "u"), 0);
    assert ReadAll(after, [], 0) == [];
  }

  // ---------- how long a session lasts ----------

  /** Operations that are not about this session. */
  predicate Untouched(ops: seq<Op>, sid: SessionId, u: UserId) {
    forall i :: 0 <= i < |ops| ==> LeavesAlone(ops[i], sid, u)
  }

  predicate LeavesAlone(op: Op, sid: SessionId, u: UserId) {
    match op
    case Save(session, _) => session.id != sid
    case Revoke(id, _, _) => id != sid
    case RevokeAll(w, _) => w != u
  }

  ghost predicate Holds(s: Store, session: Session, stored: Stored) {
    && session.id in s.keys && s.keys[session.id] == stored
    && forall u :: u in s.index && session.id in s.index[u] ==> u == session.user
  }

  lemma {:induction false} StepHolds(s: Store, op: Op, session: Session, stored: Stored)
    requires Holds(s, session, stored) && LeavesAlone(op, session.id, session.user)
    ensures Holds(Apply(s, op), session, stored)
  {
  }

  lemma {:induction false} RunHolds(s: Store, ops: seq<Op>, session: Session, stored: Stored)
    requires Holds(s, session, stored) && Untouched(ops, session.id, session.user)
    ensures Holds(Run(s, ops), session, stored)
    decreases |ops|
  {
    if ops != [] {
      StepHolds(s, ops[0], session, stored);
      assert forall i :: 0 <= i < |ops[1..]| ==> ops[1..][i] == ops[i + 1];
      RunHolds(Apply(s, ops[0]), ops[1..], session, stored);
    }
  }

  /** A session saved under a fresh id, whatever else happens to other sessions and other
      users: it resolves for its owner until its key dies, at most a second before its
      expiry, and never at or after its expiry. */
  lemma {:induction false} SavedLasts(s: Store, session: Session, at: nat, later: seq<Op>, now: nat)
    requires session.expiresAt >= at + SECOND
    requires forall u :: u in s.index ==> session.id !in s.index[u]
    requires Untouched(later, session.id, session.user)
    ensures var after := Run(Apply(s, Save(session, at)), later);
            && (now + SECOND <= session.expiresAt ==> Got(after, session.id, session.user, now) == Some(session))
            && (session.expiresAt <= now ==> Got(after, session.id, session.user, now) == None)
            && (forall u :: u != session.user ==> Got(after, session.id, u, now) == None)
  {
    var stored := Stored(session, at + Ttl(session.expiresAt, at) * SECOND);
    RunHolds(Apply(s, Save(session, at)), later, session, stored);
  }
}
