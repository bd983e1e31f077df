/** The pairing process of one session (`startWhatsAppConnection` and
    `restartConnection`, index.js:279-518) as a deterministic state machine.
    The socket, the timers and the reaper are inputs: every callback the
    source registers becomes an `Event`, and the one-second waits of the
    pairing loop become batches of events. */
module PairingMachine {
  import opened Wrappers
  import opened Sessions

  /** Close reason meaning "restart required after pairing" (index.js:374). */
  const RESTART_REQUIRED: int := 515
  /** `DisconnectReason.loggedOut` of the connection library. */
  const LOGGED_OUT: int := 401
  /** `maxRestartAttempts` (index.js:321). */
  const MAX_RESTART_ATTEMPTS: nat := 3
  /** Iterations of the one-second pairing wait (index.js:414): three minutes. */
  const PAIRING_WINDOW_TICKS: nat := 180

  /** One `connection.update` from a socket. */
  datatype Update =
    | Opened(registered: bool, exported: Option<string>)  // `exported`: what `exportSessionString` returns
    | Closed(reason: Option<int>)                         // `lastDisconnect?.error?.output?.statusCode`
    | OtherUpdate                                         // any other `connection` value

  datatype Event =
    | SocketUpdate(update: Update)         // the first socket's handler (index.js:324-397)
    | RestartTimer(setupOk: bool)          // a 2 s restart timer fires; false if the new socket's setup throws
    | RestartSocketUpdate(update: Update)  // a restart socket's handler (index.js:475-517)
    | ReaperRun(now: int)                  // `cleanupExpiredSessions` runs meanwhile

  /** The closure variables of one run (index.js:317-321), plus what the model
      needs to know about sockets and timers that exist. */
  datatype Vars = Vars(
    hasSocket: bool,         // the first socket was created and its handler attached
    isConnected: bool,
    isPaired: bool,
    restartRequired: bool,
    restartAttempts: nat,
    pendingRestarts: nat,    // restart timers scheduled and not yet fired
    restartSockets: nat)     // restart sockets whose handler is attached

  const InitVars: Vars := Vars(false, false, false, false, 0, 0, 0)

  /** The fields of the session object that the run captures once. */
  datatype Ctx = Ctx(id: SessionId, number: string, sessionName: string)

  datatype State = State(sessions: map<SessionId, Session>, exports: map<SessionId, Export>, vars: Vars)

  // ---------------------------------------------------------------------------
  // Writes to the captured session object. Once the reaper has removed the
  // record the object is detached from the map, so the write is invisible.
  // ---------------------------------------------------------------------------

  function WithStatus(m: map<SessionId, Session>, id: SessionId, st: Status): map<SessionId, Session> {
    if id in m then m[id := m[id].(status := st)] else m
  }

  function WithCode(m: map<SessionId, Session>, id: SessionId, code: string, at: int): map<SessionId, Session> {
    if id in m then m[id := m[id].(pairingCode := Some(code), codeGeneratedAt := Some(at))] else m
  }

  function WithFailure(m: map<SessionId, Session>, id: SessionId, message: string): map<SessionId, Session> {
    if id in m then m[id := m[id].(status := Error, pairingCode := Some(ERROR_PREFIX + message))] else m
  }

  function WithSessionString(m: map<SessionId, Session>, id: SessionId, str: string): map<SessionId, Session> {
    if id in m then m[id := m[id].(sessionString := Some(str), isConnected := true, status := Completed)] else m
  }

  /** Export step of an open+registered handler (index.js:340-346, 488-494):
      the record is completed and the session file written, even for a
      detached record. There is no guard against a second export. */
  function Complete(ctx: Ctx, s: State, str: string): (r: State)
    ensures r.vars == s.vars && r.sessions.Keys == s.sessions.Keys
    ensures ctx.id in r.exports && r.exports[ctx.id].sessionString == str
    ensures ctx.id in r.sessions ==> && r.sessions[ctx.id].status == Completed
                                     && r.sessions[ctx.id].sessionString == Some(str)
                                     && r.sessions[ctx.id].isConnected
  {
    s.(sessions := WithSessionString(s.sessions, ctx.id, str),
       exports := s.exports[ctx.id := Export(str, ctx.number, ctx.sessionName)])
  }

  // ---------------------------------------------------------------------------
  // Event handlers
  // ---------------------------------------------------------------------------

  /** The first socket's `connection.update` handler (index.js:324-397). */
  function OnSocketUpdate(ctx: Ctx, s: State, u: Update): State {
    if !s.vars.hasSocket then s
    else match u
      case Opened(registered, exported) =>
        var connected := s.(vars := s.vars.(isConnected := true));
        if !registered then connected
        else
          var paired := connected.(vars := connected.vars.(isPaired := true));
          if Truthy(exported) then Complete(ctx, paired, exported.value) else paired
      case Closed(reason) =>
        if reason == Some(RESTART_REQUIRED) then
          var v := s.vars.(restartRequired := true);
          if v.restartAttempts < MAX_RESTART_ATTEMPTS then
            s.(vars := v.(restartAttempts := v.restartAttempts + 1, pendingRestarts := v.pendingRestarts + 1))
          else s.(vars := v)
        else if reason == Some(LOGGED_OUT) then
          s.(sessions := WithStatus(s.sessions, ctx.id, Error))
        else s
      case OtherUpdate => s
  }

  /** A scheduled restart fires and runs `restartConnection` (index.js:384-390,
      452-473): it does nothing for a reaped record, and a setup that throws
      is logged and leaves no socket. */
  function OnRestartTimer(ctx: Ctx, s: State, setupOk: bool): (r: State)
    ensures r.sessions == s.sessions && r.exports == s.exports
    ensures r.vars.isPaired == s.vars.isPaired && r.vars.restartAttempts == s.vars.restartAttempts
    ensures s.vars.pendingRestarts > 0 ==> r.vars.pendingRestarts == s.vars.pendingRestarts - 1
    ensures r.vars.restartSockets == s.vars.restartSockets + (if s.vars.pendingRestarts > 0 && ctx.id in s.sessions && setupOk then 1 else 0)
  {
    if s.vars.pendingRestarts == 0 then s
    else
      var v := s.vars.(pendingRestarts := s.vars.pendingRestarts - 1);
      if ctx.id in s.sessions && setupOk then s.(vars := v.(restartSockets := v.restartSockets + 1))
      else s.(vars := v)
  }

  /** A restart socket's handler (index.js:475-517): it reacts to open+registered
      only, and never sets the run's `isPaired`. */
  function OnRestartSocketUpdate(ctx: Ctx, s: State, u: Update): (r: State)
    ensures r.vars == s.vars
    ensures !(u.Opened? && u.registered && Truthy(u.exported)) ==> r == s
  {
    if s.vars.restartSockets == 0 then s
    else match u
      case Opened(registered, exported) =>
        if registered && Truthy(exported) then Complete(ctx, s, exported.value) else s
      case _ => s
  }

  function Step(ctx: Ctx, s: State, e: Event): State {
    match e
    case SocketUpdate(u) => OnSocketUpdate(ctx, s, u)
    case RestartTimer(ok) => OnRestartTimer(ctx, s, ok)
    case RestartSocketUpdate(u) => OnRestartSocketUpdate(ctx, s, u)
    case ReaperRun(now) => s.(sessions := Unexpired(s.sessions, now))
  }

  /** The events of `es`, in order. */
  function Deliver(ctx: Ctx, s: State, es: seq<Event>): State
    decreases |es|
  {
    if es == [] then s else Deliver(ctx, Step(ctx, s, es[0]), es[1..])
  }

  // ---------------------------------------------------------------------------
  // The run itself (index.js:280-283, 399-448)
  // ---------------------------------------------------------------------------

  /** `session.status = 'processing'` (index.js:283), and the closure
      variables of the run declared afresh (index.js:317-321). */
  function Started(s: State, id: SessionId): State {
    State(WithStatus(s.sessions, id, Processing), s.exports, InitVars)
  }

  /** The outer catch (index.js:436-439). */
  function AfterFailure(ctx: Ctx, s: State, message: string): State {
    s.(sessions := WithFailure(s.sessions, ctx.id, message))
  }

  /** How the first socket's setup ends (index.js:287-315). */
  datatype Setup = SetupOk | SetupFailed(message: string)

  datatype Waited = Waited(state: State, ticks: nat)

  /** The events that arrive during the one-second wait of iteration `i`. */
  function TickEvents(ticks: seq<seq<Event>>, i: nat): seq<Event> {
    if i < |ticks| then ticks[i] else []
  }

  /** The two early exits of the pairing loop (index.js:415-422). */
  predicate LoopExits(v: Vars) {
    v.isPaired || (v.restartRequired && v.restartAttempts >= MAX_RESTART_ATTEMPTS)
  }

  /** The pairing loop from iteration `i` on, with the number of iterations it
      has run when it stops. */
  function WaitFrom(ctx: Ctx, s: State, ticks: seq<seq<Event>>, i: nat): (w: Waited)
    requires i <= PAIRING_WINDOW_TICKS
    ensures i <= w.ticks <= PAIRING_WINDOW_TICKS
    ensures w.ticks < PAIRING_WINDOW_TICKS ==> LoopExits(w.state.vars)
    decreases PAIRING_WINDOW_TICKS - i
  {
    if i == PAIRING_WINDOW_TICKS || LoopExits(s.vars) then Waited(s, i)
    else WaitFrom(ctx, Deliver(ctx, s, TickEvents(ticks, i)), ticks, i + 1)
  }

  /** After the loop: `if (!isPaired) session.status = 'timeout'` (index.js:426-429). */
  function EndWait(ctx: Ctx, s: State): (r: State)
    ensures r.vars == s.vars && r.exports == s.exports && r.sessions.Keys == s.sessions.Keys
    ensures s.vars.isPaired ==> r == s
    ensures !s.vars.isPaired && ctx.id in r.sessions ==> r.sessions[ctx.id].status == Timeout
  {
    if !s.vars.isPaired then s.(sessions := WithStatus(s.sessions, ctx.id, Timeout)) else s
  }

  /** The first socket is up and the settling events have arrived. */
  function Connected(ctx: Ctx, s: State, settling: seq<Event>): State {
    Deliver(ctx, s.(vars := s.vars.(hasSocket := true)), settling)
  }

  /** The pairing code and its time are stored (index.js:404-408). */
  function CodeIssued(ctx: Ctx, s: State, c: string, now: int): State {
    s.(sessions := WithCode(s.sessions, ctx.id, c, now))
  }

  /** Everything after `status = 'processing'`: setup, the settling wait (with
      the code request, during which `settling` arrives), the code result, the
      pairing loop and the final timeout check. */
  function Launch(ctx: Ctx, s: State, setup: Setup, settling: seq<Event>, code: Result<string, string>,
                  now: int, ticks: seq<seq<Event>>): State
  {
    match setup
    case SetupFailed(message) => AfterFailure(ctx, s, message)
    case SetupOk =>
      var connected := Connected(ctx, s, settling);
      match code
      case Err(message) => AfterFailure(ctx, connected, message)
      case Ok(c) => EndWait(ctx, WaitFrom(ctx, CodeIssued(ctx, connected, c, now), ticks, 0).state)
  }

  // ---------------------------------------------------------------------------
  // Invariant: completed implies exported, and a bounded restart budget
  // ---------------------------------------------------------------------------

  ghost predicate Inv(s: State) {
    && CompletedExported(s.sessions)
    && s.vars.restartAttempts <= MAX_RESTART_ATTEMPTS
    && s.vars.pendingRestarts + s.vars.restartSockets <= s.vars.restartAttempts
    && (s.vars.restartAttempts > 0 ==> s.vars.restartRequired)
  }

  lemma StepPreservesInv(ctx: Ctx, s: State, e: Event)
    requires Inv(s)
    ensures Inv(Step(ctx, s, e))
  {
  }

  lemma {:induction false} DeliverPreservesInv(ctx: Ctx, s: State, es: seq<Event>)
    requires Inv(s)
    ensures Inv(Deliver(ctx, s, es))
    decreases |es|
  {
    if es != [] {
      StepPreservesInv(ctx, s, es[0]);
      DeliverPreservesInv(ctx, Step(ctx, s, es[0]), es[1..]);
    }
  }

  lemma {:induction false} WaitFromPreservesInv(ctx: Ctx, s: State, ticks: seq<seq<Event>>, i: nat)
    requires i <= PAIRING_WINDOW_TICKS
    requires Inv(s)
    ensures Inv(WaitFrom(ctx, s, ticks, i).state)
    decreases PAIRING_WINDOW_TICKS - i
  {
    if i < PAIRING_WINDOW_TICKS && !LoopExits(s.vars) {
      DeliverPreservesInv(ctx, s, TickEvents(ticks, i));
      WaitFromPreservesInv(ctx, Deliver(ctx, s, TickEvents(ticks, i)), ticks, i + 1);
    }
  }

  /** A whole run keeps the invariant, whatever the socket, the timers and the
      reaper do. */
  lemma LaunchPreservesInv(ctx: Ctx, s: State, setup: Setup, settling: seq<Event>,
                           code: Result<string, string>, now: int, ticks: seq<seq<Event>>)
    requires CompletedExported(s.sessions)
    ensures Inv(Started(s, ctx.id))
    ensures Inv(Launch(ctx, Started(s, ctx.id), setup, settling, code, now, ticks))
  {
    var s0 := Started(s, ctx.id);
    if setup.SetupOk? {
      DeliverPreservesInv(ctx, s0.(vars := s0.vars.(hasSocket := true)), settling);
      if code.Ok? {
        WaitFromPreservesInv(ctx, CodeIssued(ctx, Connected(ctx, s0, settling), code.value, now), ticks, 0);
      }
    }
  }

  // ---------------------------------------------------------------------------
  // Isolation: a run writes only its own record and never re-creates it
  // ---------------------------------------------------------------------------

  /** `after` differs from `before` only in the record `id`, and has no key
      that `before` lacks. */
  ghost predicate Confined(id: SessionId, before: map<SessionId, Session>, after: map<SessionId, Session>) {
    && after.Keys <= before.Keys
    && forall k :: k in after && k != id ==> after[k] == before[k]
  }

  lemma StepConfined(ctx: Ctx, s: State, e: Event)
    ensures Confined(ctx.id, s.sessions, Step(ctx, s, e).sessions)
  {
  }

  lemma {:induction false} DeliverConfined(ctx: Ctx, s: State, es: seq<Event>)
    ensures Confined(ctx.id, s.sessions, Deliver(ctx, s, es).sessions)
    decreases |es|
  {
    if es != [] {
      StepConfined(ctx, s, es[0]);
      DeliverConfined(ctx, Step(ctx, s, es[0]), es[1..]);
    }
  }

  lemma {:induction false} WaitFromConfined(ctx: Ctx, s: State, ticks: seq<seq<Event>>, i: nat)
    requires i <= PAIRING_WINDOW_TICKS
    ensures Confined(ctx.id, s.sessions, WaitFrom(ctx, s, ticks, i).state.sessions)
    decreases PAIRING_WINDOW_TICKS - i
  {
    if i < PAIRING_WINDOW_TICKS && !LoopExits(s.vars) {
      DeliverConfined(ctx, s, TickEvents(ticks, i));
      WaitFromConfined(ctx, Deliver(ctx, s, TickEvents(ticks, i)), ticks, i + 1);
    }
  }

  /** One session's run never touches another session's record, and a record
      the reaper removed stays removed. */
  lemma LaunchConfined(ctx: Ctx, s: State, setup: Setup, settling: seq<Event>,
                       code: Result<string, string>, now: int, ticks: seq<seq<Event>>)
    ensures Confined(ctx.id, s.sessions, Launch(ctx, Started(s, ctx.id), setup, settling, code, now, ticks).sessions)
  {
    var s0 := Started(s, ctx.id);
    if setup.SetupOk? {
      DeliverConfined(ctx, s0.(vars := s0.vars.(hasSocket := true)), settling);
      if code.Ok? {
        WaitFromConfined(ctx, CodeIssued(ctx, Connected(ctx, s0, settling), code.value, now), ticks, 0);
      }
    }
  }

  // ---------------------------------------------------------------------------
  // The handlers' individual promises
  // ---------------------------------------------------------------------------

  /** open with `registered` and a non-empty export: the record is completed,
      connected and carries the string, all at once, and the file is written. */
  lemma RegisteredOpenCompletes(ctx: Ctx, s: State, str: string)
    requires s.vars.hasSocket && ctx.id in s.sessions && str != ""
    ensures var r := Step(ctx, s, SocketUpdate(Opened(true, Some(str))));
            && r.sessions[ctx.id].sessionString == Some(str)
            && r.sessions[ctx.id].isConnected
            && r.sessions[ctx.id].status == Completed
            && r.vars.isPaired
            && r.exports[ctx.id] == Export(str, ctx.number, ctx.sessionName)
  {
  }

  /** open with `registered` whose export fails: the run is paired but the
      record is unchanged. */
  lemma RegisteredOpenWithoutExport(ctx: Ctx, s: State, exported: Option<string>)
    requires s.vars.hasSocket && !Truthy(exported)
    ensures var r := Step(ctx, s, SocketUpdate(Opened(true, exported)));
            r.sessions == s.sessions && r.exports == s.exports && r.vars.isPaired
  {
  }

  /** No export-once guard: a second open+registered overwrites the session
      string and the session file. */
  lemma RepeatedOpenOverwrites(ctx: Ctx, s: State, first: string, second: string)
    requires s.vars.hasSocket && ctx.id in s.sessions && first != "" && second != ""
    ensures var r := Deliver(ctx, s, [SocketUpdate(Opened(true, Some(first))), SocketUpdate(Opened(true, Some(second)))]);
            && ctx.id in r.sessions && ctx.id in r.exports
            && r.sessions[ctx.id].sessionString == Some(second) && r.exports[ctx.id].sessionString == second
  {
    var es := [SocketUpdate(Opened(true, Some(first))), SocketUpdate(Opened(true, Some(second)))];
    var s1 := Step(ctx, s, es[0]);
    var s2 := Step(ctx, s1, es[1]);
    assert es[1..] == [es[1]];
    assert Deliver(ctx, s1, [es[1]]) == Deliver(ctx, s2, []);
  }

  /** close(515): the counter grows by one while it is below the budget, and
      only then is a restart scheduled. */
  lemma RecoverableClose(ctx: Ctx, s: State)
    requires s.vars.hasSocket
    ensures var r := Step(ctx, s, SocketUpdate(Closed(Some(RESTART_REQUIRED))));
            && r.sessions == s.sessions && r.exports == s.exports
            && r.vars.restartRequired
            && r.vars.restartAttempts == (if s.vars.restartAttempts < MAX_RESTART_ATTEMPTS then s.vars.restartAttempts + 1 else s.vars.restartAttempts)
            && (s.vars.restartAttempts <= MAX_RESTART_ATTEMPTS ==> r.vars.restartAttempts <= MAX_RESTART_ATTEMPTS)
            && r.vars.pendingRestarts == s.vars.pendingRestarts + (if s.vars.restartAttempts < MAX_RESTART_ATTEMPTS then 1 else 0)
  {
  }

  function Repeat(e: Event, n: nat): (es: seq<Event>)
    ensures |es| == n && forall k :: 0 <= k < n ==> es[k] == e
  {
    if n == 0 then [] else [e] + Repeat(e, n - 1)
  }

  /** N consecutive close(515) events schedule exactly min(N, budget - used)
      restarts, and the counter never passes the budget. */
  lemma {:induction false} ConsecutiveRecoverableCloses(ctx: Ctx, s: State, n: nat)
    requires s.vars.hasSocket && s.vars.restartAttempts <= MAX_RESTART_ATTEMPTS
    ensures var r := Deliver(ctx, s, Repeat(SocketUpdate(Closed(Some(RESTART_REQUIRED))), n));
            && r.sessions == s.sessions && r.exports == s.exports
            && r.vars.restartAttempts == Min(s.vars.restartAttempts + n, MAX_RESTART_ATTEMPTS)
            && r.vars.pendingRestarts == s.vars.pendingRestarts + (r.vars.restartAttempts - s.vars.restartAttempts)
            && r.vars.hasSocket && r.vars.isPaired == s.vars.isPaired
            && (n > 0 ==> r.vars.restartRequired)
    decreases n
  {
    var e := SocketUpdate(Closed(Some(RESTART_REQUIRED)));
    if n > 0 {
      var es := Repeat(e, n);
      assert es[0] == e && es[1..] == Repeat(e, n - 1);
      var s1 := Step(ctx, s, e);
      ConsecutiveRecoverableCloses(ctx, s1, n - 1);
    }
  }

  /** close(loggedOut): the record becomes `error`; the restart counter and the
      other closure variables are untouched. */
  lemma LoggedOutClose(ctx: Ctx, s: State)
    requires s.vars.hasSocket
    ensures var r := Step(ctx, s, SocketUpdate(Closed(Some(LOGGED_OUT))));
            && r.vars == s.vars && r.exports == s.exports
            && r.sessions == WithStatus(s.sessions, ctx.id, Error)
            && (ctx.id in s.sessions ==> r.sessions[ctx.id].status == Error)
  {
  }

  /** The outer catch sets `error` and the `ERROR:` marker. */
  lemma FailureMarksError(ctx: Ctx, s: State, setup: Setup, settling: seq<Event>,
                          code: Result<string, string>, now: int, ticks: seq<seq<Event>>)
    requires setup.SetupFailed? || code.Err?
    ensures var message := if setup.SetupFailed? then setup.message else code.error;
            var r := Launch(ctx, s, setup, settling, code, now, ticks);
            ctx.id in r.sessions ==> r.sessions[ctx.id].status == Error
                                     && r.sessions[ctx.id].pairingCode == Some(ERROR_PREFIX + message)
  {
  }

  // ---------------------------------------------------------------------------
  // The pairing loop
  // ---------------------------------------------------------------------------

  /** The loop runs at most 180 iterations, stops early only on `isPaired` or
      exhausted restarts, and when it ends unpaired the record is `timeout`. */
  lemma PairingLoopOutcome(ctx: Ctx, s: State, ticks: seq<seq<Event>>)
    ensures var w := WaitFrom(ctx, s, ticks, 0);
            var r := EndWait(ctx, w.state);
            && w.ticks <= PAIRING_WINDOW_TICKS
            && (w.ticks < PAIRING_WINDOW_TICKS ==> LoopExits(w.state.vars))
            && (w.state.vars.isPaired ==> r == w.state)
            && (!w.state.vars.isPaired && ctx.id in r.sessions ==> r.sessions[ctx.id].status == Timeout)
  {
  }

  /** The restart sockets, the timers and the reaper never set `isPaired`;
      only an open+registered on the first socket does. */
  predicate PairsRun(e: Event) {
    e.SocketUpdate? && e.update.Opened? && e.update.registered
  }

  predicate NoPairingEvent(ticks: seq<seq<Event>>) {
    forall i, j :: 0 <= i < |ticks| && 0 <= j < |ticks[i]| ==> !PairsRun(ticks[i][j])
  }

  lemma {:induction false} DeliverKeepsUnpaired(ctx: Ctx, s: State, es: seq<Event>)
    requires !s.vars.isPaired
    requires forall j :: 0 <= j < |es| ==> !PairsRun(es[j])
    ensures !Deliver(ctx, s, es).vars.isPaired
    decreases |es|
  {
    if es != [] {
      DeliverKeepsUnpaired(ctx, Step(ctx, s, es[0]), es[1..]);
    }
  }

  lemma {:induction false} WaitFromKeepsUnpaired(ctx: Ctx, s: State, ticks: seq<seq<Event>>, i: nat)
    requires i <= PAIRING_WINDOW_TICKS
    requires !s.vars.isPaired && NoPairingEvent(ticks)
    ensures !WaitFrom(ctx, s, ticks, i).state.vars.isPaired
    decreases PAIRING_WINDOW_TICKS - i
  {
    if i < PAIRING_WINDOW_TICKS && !LoopExits(s.vars) {
      var es := TickEvents(ticks, i);
      assert forall j :: 0 <= j < |es| ==> !PairsRun(es[j]);
      DeliverKeepsUnpaired(ctx, s, es);
      WaitFromKeepsUnpaired(ctx, Deliver(ctx, s, es), ticks, i + 1);
    }
  }

  /** Without an open+registered on the first socket the run ends `timeout`,
      even when a restart socket completed the session in between. */
  lemma UnpairedRunTimesOut(ctx: Ctx, s: State, ticks: seq<seq<Event>>)
    requires !s.vars.isPaired && NoPairingEvent(ticks)
    ensures var r := EndWait(ctx, WaitFrom(ctx, s, ticks, 0).state);
            ctx.id in r.sessions ==> r.sessions[ctx.id].status == Timeout
  {
    WaitFromKeepsUnpaired(ctx, s, ticks, 0);
  }

  /** Iterations with no events leave the state as it is. */
  lemma {:induction false} QuietWait(ctx: Ctx, s: State, ticks: seq<seq<Event>>, i: nat)
    requires i <= PAIRING_WINDOW_TICKS
    requires forall j :: i <= j < |ticks| ==> ticks[j] == []
    ensures WaitFrom(ctx, s, ticks, i).state == s
    decreases PAIRING_WINDOW_TICKS - i
  {
    if i < PAIRING_WINDOW_TICKS && !LoopExits(s.vars) {
      assert TickEvents(ticks, i) == [];
      QuietWait(ctx, s, ticks, i + 1);
    }
  }

  /** The scenario of a successful restart: close(515), the restart socket comes
      up and opens registered, so the record is `completed` with its string;
      the first socket never pairs, so when the window ends `timeout`
      overwrites `completed` while the string stays. */
  lemma RestartCompletionOverwrittenByTimeout(ctx: Ctx, s: State, str: string)
    requires s.vars == InitVars.(hasSocket := true)
    requires ctx.id in s.sessions && str != ""
    ensures var tick := [SocketUpdate(Closed(Some(RESTART_REQUIRED))), RestartTimer(true),
                         RestartSocketUpdate(Opened(true, Some(str)))];
            var mid := Deliver(ctx, s, tick);
            var r := EndWait(ctx, WaitFrom(ctx, s, [tick], 0).state);
            && ctx.id in mid.sessions && ctx.id in r.sessions
            && mid.sessions[ctx.id].status == Completed && !mid.vars.isPaired
            && r.sessions[ctx.id].status == Timeout
            && r.sessions[ctx.id].sessionString == Some(str)
  {
    var tick := [SocketUpdate(Closed(Some(RESTART_REQUIRED))), RestartTimer(true),
                 RestartSocketUpdate(Opened(true, Some(str)))];
    var s1 := Step(ctx, s, tick[0]);
    var s2 := Step(ctx, s1, tick[1]);
    var s3 := Step(ctx, s2, tick[2]);
    assert tick[1..] == [tick[1], tick[2]];
    assert [tick[1], tick[2]][1..] == [tick[2]];
    assert Deliver(ctx, s2, [tick[2]]) == Deliver(ctx, s3, []);
    assert Deliver(ctx, s, tick) == s3;
    assert s3.sessions[ctx.id].status == Completed && s3.vars.restartAttempts == 1;
    assert WaitFrom(ctx, s, [tick], 0) == WaitFrom(ctx, s3, [tick], 1);
    QuietWait(ctx, s3, [tick], 1);
  }

  /** An event never clears `hasSocket` or `isPaired`. */
  lemma {:induction false} DeliverKeepsPaired(ctx: Ctx, s: State, es: seq<Event>)
    ensures s.vars.hasSocket ==> Deliver(ctx, s, es).vars.hasSocket
    ensures s.vars.isPaired ==> Deliver(ctx, s, es).vars.isPaired
    decreases |es|
  {
    if es != [] {
      DeliverKeepsPaired(ctx, Step(ctx, s, es[0]), es[1..]);
    }
  }

  /** An open+registered on the first socket, anywhere in a batch, leaves the
      run paired at the end of the batch. */
  lemma {:induction false} DeliverPairs(ctx: Ctx, s: State, es: seq<Event>, j: nat)
    requires s.vars.hasSocket && j < |es| && PairsRun(es[j])
    ensures Deliver(ctx, s, es).vars.isPaired
    decreases j
  {
    var s1 := Step(ctx, s, es[0]);
    if j == 0 {
      DeliverKeepsPaired(ctx, s1, es[1..]);
    } else {
      assert es[1..][j - 1] == es[j];
      DeliverPairs(ctx, s1, es[1..], j - 1);
    }
  }

  /** An open+registered in the wait of iteration `i` pairs the run, provided
      the loop got as far as that wait. */
  lemma {:induction false} WaitFromPairs(ctx: Ctx, s: State, ticks: seq<seq<Event>>, k: nat, i: nat, j: nat)
    requires k <= i < PAIRING_WINDOW_TICKS
    requires s.vars.hasSocket && i < |ticks| && j < |ticks[i]| && PairsRun(ticks[i][j])
    requires WaitFrom(ctx, s, ticks, k).ticks > i
    ensures WaitFrom(ctx, s, ticks, k).state.vars.isPaired
    decreases i - k
  {
    var es := TickEvents(ticks, k);
    if k == i {
      DeliverPairs(ctx, s, es, j);
    } else {
      DeliverKeepsPaired(ctx, s, es);
      WaitFromPairs(ctx, Deliver(ctx, s, es), ticks, k + 1, i, j);
    }
  }

  /** The record of `id`, if present, is not `timeout`. */
  ghost predicate NotTimedOut(id: SessionId, m: map<SessionId, Session>) {
    id in m ==> m[id].status != Timeout
  }

  lemma {:induction false} DeliverNeverTimesOut(ctx: Ctx, s: State, es: seq<Event>)
    requires NotTimedOut(ctx.id, s.sessions)
    ensures NotTimedOut(ctx.id, Deliver(ctx, s, es).sessions)
    decreases |es|
  {
    if es != [] {
      DeliverNeverTimesOut(ctx, Step(ctx, s, es[0]), es[1..]);
    }
  }

  lemma {:induction false} WaitFromNeverTimesOut(ctx: Ctx, s: State, ticks: seq<seq<Event>>, i: nat)
    requires i <= PAIRING_WINDOW_TICKS
    requires NotTimedOut(ctx.id, s.sessions)
    ensures NotTimedOut(ctx.id, WaitFrom(ctx, s, ticks, i).state.sessions)
    decreases PAIRING_WINDOW_TICKS - i
  {
    if i < PAIRING_WINDOW_TICKS && !LoopExits(s.vars) {
      DeliverNeverTimesOut(ctx, s, TickEvents(ticks, i));
      WaitFromNeverTimesOut(ctx, Deliver(ctx, s, TickEvents(ticks, i)), ticks, i + 1);
    }
  }

  /** A run whose code arrived ends `timeout` exactly when the pairing loop
      ended unpaired: only the final check writes `timeout`. */
  lemma RunTimesOutIffUnpaired(ctx: Ctx, s: State, settling: seq<Event>, c: string, now: int,
                               ticks: seq<seq<Event>>)
    ensures var w := WaitFrom(ctx, CodeIssued(ctx, Connected(ctx, Started(s, ctx.id), settling), c, now), ticks, 0);
            var r := Launch(ctx, Started(s, ctx.id), SetupOk, settling, Ok(c), now, ticks);
            ctx.id in r.sessions ==> (r.sessions[ctx.id].status == Timeout <==> !w.state.vars.isPaired)
  {
    var s0 := Started(s, ctx.id);
    DeliverNeverTimesOut(ctx, s0.(vars := s0.vars.(hasSocket := true)), settling);
    WaitFromNeverTimesOut(ctx, CodeIssued(ctx, Connected(ctx, s0, settling), c, now), ticks, 0);
  }

  /** An open+registered on the first socket while the run settles means the
      loop is skipped and the run does not end `timeout`. */
  lemma SettlingPairingPreventsTimeout(ctx: Ctx, s: State, settling: seq<Event>, c: string, now: int,
                                       ticks: seq<seq<Event>>, j: nat)
    requires j < |settling| && PairsRun(settling[j])
    ensures var w := WaitFrom(ctx, CodeIssued(ctx, Connected(ctx, Started(s, ctx.id), settling), c, now), ticks, 0);
            var r := Launch(ctx, Started(s, ctx.id), SetupOk, settling, Ok(c), now, ticks);
            && w.ticks == 0 && w.state.vars.isPaired && r == w.state
            && (ctx.id in r.sessions ==> r.sessions[ctx.id].status != Timeout)
  {
    var s0 := Started(s, ctx.id);
    DeliverPairs(ctx, s0.(vars := s0.vars.(hasSocket := true)), settling, j);
    RunTimesOutIffUnpaired(ctx, s, settling, c, now, ticks);
  }

  /** An open+registered on the first socket during a wait the loop performed
      (iteration `i`, before the loop stopped) means the run does not end
      `timeout`. */
  lemma WindowPairingPreventsTimeout(ctx: Ctx, s: State, settling: seq<Event>, c: string, now: int,
                                     ticks: seq<seq<Event>>, i: nat, j: nat)
    requires i < |ticks| && i < PAIRING_WINDOW_TICKS && j < |ticks[i]| && PairsRun(ticks[i][j])
    requires WaitFrom(ctx, CodeIssued(ctx, Connected(ctx, Started(s, ctx.id), settling), c, now), ticks, 0).ticks > i
    ensures var w := WaitFrom(ctx, CodeIssued(ctx, Connected(ctx, Started(s, ctx.id), settling), c, now), ticks, 0);
            var r := Launch(ctx, Started(s, ctx.id), SetupOk, settling, Ok(c), now, ticks);
            && w.state.vars.isPaired && r == w.state
            && (ctx.id in r.sessions ==> r.sessions[ctx.id].status != Timeout)
  {
    var s0 := Started(s, ctx.id);
    DeliverKeepsPaired(ctx, s0.(vars := s0.vars.(hasSocket := true)), settling);
    WaitFromPairs(ctx, CodeIssued(ctx, Connected(ctx, s0, settling), c, now), ticks, 0, i, j);
    RunTimesOutIffUnpaired(ctx, s, settling, c, now, ticks);
  }

  /** Nothing detaches the handlers or cancels the timers when the window
      ends: three close(515) in the first wait spend the budget, the loop
      stops after one iteration with three restarts still scheduled, the run
      writes `timeout`, and a restart that comes up afterwards turns the record
      `completed` and writes the session file. */
  lemma LateRestartCompletesAfterTimeout(ctx: Ctx, s: State, str: string)
    requires s.vars == InitVars.(hasSocket := true)
    requires ctx.id in s.sessions && str != ""
    ensures var tick := Repeat(SocketUpdate(Closed(Some(RESTART_REQUIRED))), MAX_RESTART_ATTEMPTS);
            var w := WaitFrom(ctx, s, [tick], 0);
            var ended := EndWait(ctx, w.state);
            var late := Deliver(ctx, ended, [RestartTimer(true), RestartSocketUpdate(Opened(true, Some(str)))]);
            && w.ticks == 1 && w.state.vars.pendingRestarts == MAX_RESTART_ATTEMPTS
            && ctx.id in ended.sessions && ended.sessions[ctx.id].status == Timeout
            && ctx.id in late.sessions && late.sessions[ctx.id].status == Completed
            && late.sessions[ctx.id].sessionString == Some(str)
            && ctx.id in late.exports && late.exports[ctx.id] == Export(str, ctx.number, ctx.sessionName)
  {
    var tick := Repeat(SocketUpdate(Closed(Some(RESTART_REQUIRED))), MAX_RESTART_ATTEMPTS);
    ConsecutiveRecoverableCloses(ctx, s, MAX_RESTART_ATTEMPTS);
    var s3 := Deliver(ctx, s, tick);
    assert TickEvents([tick], 0) == tick;
    assert WaitFrom(ctx, s, [tick], 0) == WaitFrom(ctx, s3, [tick], 1);
    assert WaitFrom(ctx, s3, [tick], 1) == Waited(s3, 1);
    var ended := EndWait(ctx, s3);
    var late := [RestartTimer(true), RestartSocketUpdate(Opened(true, Some(str)))];
    var e1 := Step(ctx, ended, late[0]);
    var e2 := Step(ctx, e1, late[1]);
    assert late[1..] == [late[1]];
    assert Deliver(ctx, e1, [late[1]]) == Deliver(ctx, e2, []);
  }
}
