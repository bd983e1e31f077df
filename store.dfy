/** The process-wide map from session id to session record (index.js:41),
    the POST /api/number handler that adds to it (index.js:112-133) and the
    reaper that deletes expired records from it in place (index.js:55-63). */
module Store {
  import opened Wrappers
  import opened Sessions

  /** The 400 reply "Number is required". */
  datatype RequestError = NumberRequired

  /** What the handler answers on success. */
  datatype Created = Created(sessionId: SessionId, sessionName: string)

  /** The guard `if (!number)` followed by `number.trim()`: an absent or empty
      number is refused; any other text, even one of only spaces, is accepted
      and trimmed. */
  function CheckNumber(number: Option<string>): (r: Result<string, RequestError>)
    ensures r.Err? <==> number.None? || number.value == ""
    ensures r.Ok? ==> r.value == Trim(number.value)
  {
    match number
    case None => Err(NumberRequired)
    case Some(n) => if n == "" then Err(NumberRequired) else Ok(Trim(n))
  }

  /** A number made only of white space passes the guard and is stored empty. */
  lemma BlankNumberAccepted(n: string)
    requires n != [] && AllWhiteSpace(n)
    ensures CheckNumber(Some(n)) == Ok("")
  {
  }

  /** The record the handler stores for a new request. */
  function NewSession(id: SessionId, number: string, now: int): (r: Session)
    ensures r.sessionId == id && r.number == number && r.sessionName == SessionName(id)
    ensures r.status == Waiting && r.pairingCode == None && r.sessionString == None && !r.isConnected
    ensures forall t :: Expired(r, t) <==> t > now + PENDING_EXPIRY
  {
    Session(
      number := number,
      sessionId := id,
      sessionName := SessionName(id),
      createdAt := now,
      isProcessed := false,
      pairingCode := None,
      codeGeneratedAt := None,
      sessionString := None,
      isConnected := false,
      status := Waiting)
  }

  class SessionStore {
    /** `userSessions`. */
    var sessions: map<SessionId, Session>
    /** The files under sessions/, keyed by session id. */
    var exports: map<SessionId, Export>

    ghost predicate Valid()
      reads this
    {
      CompletedExported(sessions)
    }

    constructor ()
      ensures Valid()
      ensures sessions == map[] && exports == map[]
    {
      sessions := map[];
      exports := map[];
    }

    /** POST /api/number up to the call of the pairing process. The id is the
        caller's: generating it uses a random source and the clock. */
    method Create(id: SessionId, number: Option<string>, now: int) returns (r: Result<Created, RequestError>)
      requires Valid()
      modifies this
      ensures Valid()
      ensures exports == old(exports)
      ensures r.Err? <==> number.None? || number.value == ""
      ensures r.Err? ==> sessions == old(sessions)
      ensures r.Ok? ==> r.value == Created(id, SessionName(id))
      ensures r.Ok? ==> sessions == old(sessions)[id := NewSession(id, Trim(number.value), now)]
      ensures r.Ok? ==>
                var s := sessions[id];
                && s.status == Waiting && s.pairingCode.None? && s.codeGeneratedAt.None?
                && s.sessionString.None? && !s.isConnected && !s.isProcessed
                && s.number == Trim(number.value) && s.createdAt == now
                && s.sessionId == id && s.sessionName == SessionName(id)
    {
      var checked := CheckNumber(number);
      if checked.Err? {
        return Err(NumberRequired);
      }
      sessions := sessions[id := NewSession(id, checked.value, now)];
      r := Ok(Created(id, SessionName(id)));
    }

    /** `cleanupExpiredSessions`: walks the map and deletes every record older
        than the retention window; `now` is the clock reading. */
    method CleanupExpired(now: int)
      modifies this
      ensures old(Valid()) ==> Valid()
      ensures exports == old(exports)
      ensures sessions == Unexpired(old(sessions), now)
      ensures forall k :: k in sessions ==> k in old(sessions) && sessions[k] == old(sessions)[k]
      ensures forall k :: k in sessions ==> !Expired(sessions[k], now)
      ensures forall k :: k in old(sessions) && !Expired(old(sessions)[k], now) ==> k in sessions
    {
      var pending := sessions.Keys;
      while pending != {}
        invariant pending <= old(sessions).Keys
        invariant (old(Valid()) ==> Valid()) && exports == old(exports)
        invariant forall k :: k in sessions ==> k in old(sessions) && sessions[k] == old(sessions)[k]
        invariant forall k :: k in old(sessions) ==>
                    (k in sessions <==> k in pending || !Expired(old(sessions)[k], now))
        decreases pending
      {
        var k :| k in pending;
        if Expired(sessions[k], now) {
          sessions := sessions - {k};
        }
        pending := pending - {k};
      }
    }
  }
}
