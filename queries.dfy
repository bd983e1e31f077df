/** The read-only handlers: GET /api/session-data/:sessionId (index.js:237-257)
    and GET /api/stats (index.js:232-271). */
module Queries {
  import opened Wrappers
  import opened Sessions

  // ---------------------------------------------------------------------------
  // Session data
  // ---------------------------------------------------------------------------

  datatype DataError = SessionNotFound | NotConnectedYet  // 404 and 400

  /** The reply body; its `exportedAt` wall-clock stamp is not modelled. */
  datatype SessionData = SessionData(sessionId: SessionId, sessionName: string, number: string,
                                     sessionString: string, createdAt: int)

  function GetSessionData(lookup: Option<Session>): (r: Result<SessionData, DataError>)
    ensures r == Err(SessionNotFound) <==> lookup.None?
    ensures r == Err(NotConnectedYet) <==> lookup.Some? && !Truthy(lookup.value.sessionString)
    ensures r.Ok? ==> && lookup.Some? && Truthy(lookup.value.sessionString)
                      && r.value.sessionString == lookup.value.sessionString.value
                      && r.value.sessionId == lookup.value.sessionId
                      && r.value.number == lookup.value.number
  {
    match lookup
    case None => Err(SessionNotFound)
    case Some(s) =>
      if !Truthy(s.sessionString) then Err(NotConnectedYet)
      else Ok(SessionData(s.sessionId, s.sessionName, s.number, s.sessionString.value, s.createdAt))
  }

  /** In a store where completed implies exported, every completed session's
      data can be fetched. */
  lemma CompletedSessionHasData(m: map<SessionId, Session>, id: SessionId)
    requires CompletedExported(m) && id in m && m[id].status == Completed
    ensures GetSessionData(Lookup(m, id)).Ok?
    ensures GetSessionData(Lookup(m, id)).value.sessionString == m[id].sessionString.value
  {
  }

  // ---------------------------------------------------------------------------
  // Statistics
  // ---------------------------------------------------------------------------

  /** The stats handler's filter: strictly younger than the retention window. */
  predicate IsActive(s: Session, now: int) {
    now - s.createdAt < PENDING_EXPIRY
  }

  /** The predicates the handler filters by. */
  datatype Filter = ActiveAt(now: int) | InStatus(status: Status) | Connected

  predicate Matches(f: Filter, s: Session) {
    match f
    case ActiveAt(now) => IsActive(s, now)
    case InStatus(st) => s.status == st
    case Connected => s.isConnected
  }

  /** `Array.prototype.filter`. */
  function Select(vals: seq<Session>, f: Filter): (r: seq<Session>)
    ensures |r| <= |vals|
    ensures forall k :: 0 <= k < |r| ==> Matches(f, r[k])
    ensures forall x :: multiset(r)[x] == if Matches(f, x) then multiset(vals)[x] else 0
  {
    if vals == [] then []
    else
      assert vals == [vals[0]] + vals[1..];
      if Matches(f, vals[0]) then [vals[0]] + Select(vals[1..], f)
      else Select(vals[1..], f)
  }

  datatype Stats = Stats(totalActiveSessions: nat, waitingSessions: nat, processingSessions: nat,
                         connectedSessions: nat, errorSessions: nat)

  /** `vals` is `Array.from(userSessions.values())`, in the map's iteration order. */
  function GetStats(vals: seq<Session>, now: int): (r: Stats)
    ensures r.totalActiveSessions <= |vals|
    ensures r.waitingSessions + r.processingSessions + r.errorSessions <= r.totalActiveSessions
    ensures r.connectedSessions <= r.totalActiveSessions
    ensures r.totalActiveSessions == |Select(vals, ActiveAt(now))|
    ensures r.waitingSessions == |Select(Select(vals, ActiveAt(now)), InStatus(Waiting))|
    ensures r.processingSessions == |Select(Select(vals, ActiveAt(now)), InStatus(Processing))|
    ensures r.connectedSessions == |Select(Select(vals, ActiveAt(now)), Connected)|
    ensures r.errorSessions == |Select(Select(vals, ActiveAt(now)), InStatus(Error))|
  {
    var active := Select(vals, ActiveAt(now));
    StatusCountsBounded(active);
    Stats(|active|,
          |Select(active, InStatus(Waiting))|,
          |Select(active, InStatus(Processing))|,
          |Select(active, Connected)|,
          |Select(active, InStatus(Error))|)
  }

  /** A record is in one status only, so the three status counts fit in the total. */
  lemma {:induction false} StatusCountsBounded(vals: seq<Session>)
    ensures |Select(vals, InStatus(Waiting))| + |Select(vals, InStatus(Processing))|
            + |Select(vals, InStatus(Error))| <= |vals|
    decreases |vals|
  {
    if vals != [] {
      StatusCountsBounded(vals[1..]);
    }
  }

  /** Permuting the input permutes the selection. */
  lemma SelectPermutation(a: seq<Session>, b: seq<Session>, f: Filter)
    requires multiset(a) == multiset(b)
    ensures multiset(Select(a, f)) == multiset(Select(b, f))
  {
    assert forall x :: multiset(Select(a, f))[x] == multiset(Select(b, f))[x];
  }

  /** The counts do not depend on the map's iteration order. */
  lemma StatsIgnoreOrder(a: seq<Session>, b: seq<Session>, now: int)
    requires multiset(a) == multiset(b)
    ensures GetStats(a, now) == GetStats(b, now)
  {
    var f := ActiveAt(now);
    SelectPermutation(a, b, f);
    var ea, eb := Select(a, f), Select(b, f);
    assert |ea| == |multiset(ea)| == |multiset(eb)| == |eb|;
    var fs := [InStatus(Waiting), InStatus(Processing), Connected, InStatus(Error)];
    forall g | g in fs
      ensures |Select(ea, g)| == |Select(eb, g)|
    {
      SelectPermutation(ea, eb, g);
      assert |Select(ea, g)| == |multiset(Select(ea, g))|;
      assert |Select(eb, g)| == |multiset(Select(eb, g))|;
    }
    assert fs[0] in fs && fs[1] in fs && fs[2] in fs && fs[3] in fs;
  }

  /** The reaper keeps a record whose age is exactly the retention window,
      but the statistics no longer count it as active. */
  lemma BoundaryAgeKeptButInactive(m: map<SessionId, Session>, id: SessionId, now: int)
    requires id in m && now - m[id].createdAt == PENDING_EXPIRY
    ensures id in Unexpired(m, now)
    ensures Select([Unexpired(m, now)[id]], ActiveAt(now)) == []
  {
  }
}
