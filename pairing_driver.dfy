/** One run of `startWhatsAppConnection` (index.js:279-449) together with the
    restart connections it schedules (index.js:452-518), as an object whose
    fields are the run's closure variables. Every handler writes the shared
    store in place; each method is proved against the state machine of
    `PairingMachine`. */
module PairingDriver {
  import opened Wrappers
  import opened Sessions
  import opened Store
  import opened PairingMachine

  class Pairing {
    const store: SessionStore
    const id: SessionId
    /** `session.number` and `session.sessionName`, captured at the start. */
    var number: string
    var sessionName: string
    var hasSocket: bool
    var isConnected: bool
    var isPaired: bool
    var restartRequired: bool
    var restartAttempts: nat
    var pendingRestarts: nat
    var restartSockets: nat

    function Context(): Ctx
      reads this
    {
      Ctx(id, number, sessionName)
    }

    function Closure(): Vars
      reads this
    {
      Vars(hasSocket, isConnected, isPaired, restartRequired, restartAttempts, pendingRestarts, restartSockets)
    }

    function Snapshot(): State
      reads this, store
    {
      State(store.sessions, store.exports, Closure())
    }

    constructor (store: SessionStore, id: SessionId)
      ensures this.store == store && this.id == id
      ensures Closure() == InitVars
    {
      this.store := store;
      this.id := id;
      number, sessionName := "", "";
      hasSocket, isConnected, isPaired, restartRequired := false, false, false, false;
      restartAttempts, pendingRestarts, restartSockets := 0, 0, 0;
    }

    /** index.js:280-283: nothing happens for an absent id; otherwise the
        record turns `processing` and the run captures its fields. */
    method Start() returns (started: bool)
      modifies this, store
      ensures started == (id in old(store.sessions))
      ensures store.sessions == WithStatus(old(store.sessions), id, Processing)
      ensures store.exports == old(store.exports) && Closure() == old(Closure())
      ensures !started ==> Context() == old(Context())
      ensures started ==> Context() == Ctx(id, old(store.sessions)[id].number, old(store.sessions)[id].sessionName)
      ensures started ==> store.sessions[id].status == Processing
    {
      if id !in store.sessions {
        return false;
      }
      var session := store.sessions[id];
      number, sessionName := session.number, session.sessionName;
      store.sessions := store.sessions[id := session.(status := Processing)];
      started := true;
    }

    /** The export step shared by both open handlers (index.js:339-346, 487-494). */
    method ExportSession(str: string)
      modifies store
      ensures Snapshot() == Complete(Context(), old(Snapshot()), str)
    {
      if id in store.sessions {
        var session := store.sessions[id];
        store.sessions := store.sessions[id := session.(sessionString := Some(str), isConnected := true, status := Completed)];
      }
      store.exports := store.exports[id := Export(str, number, sessionName)];
    }

    /** The first socket's `connection.update` handler (index.js:324-397). */
    method OnSocketUpdate(u: Update)
      modifies this, store
      ensures Context() == old(Context())
      ensures Snapshot() == PairingMachine.OnSocketUpdate(old(Context()), old(Snapshot()), u)
    {
      if !hasSocket {
        return;
      }
      match u {
        case Opened(registered, exported) =>
          isConnected := true;
          if registered {
            isPaired := true;
            if Truthy(exported) {
              ExportSession(exported.value);
            }
          }
        case Closed(reason) =>
          if reason == Some(RESTART_REQUIRED) {
            restartRequired := true;
            if restartAttempts < MAX_RESTART_ATTEMPTS {
              restartAttempts := restartAttempts + 1;
              pendingRestarts := pendingRestarts + 1;
            }
          } else if reason == Some(LOGGED_OUT) {
            if id in store.sessions {
              store.sessions := store.sessions[id := store.sessions[id].(status := Error)];
            }
          }
        case OtherUpdate =>
      }
    }

    /** A 2 s restart timer fires (index.js:384-390, 452-473). */
    method OnRestartTimer(setupOk: bool)
      modifies this
      ensures Context() == old(Context())
      ensures Snapshot() == PairingMachine.OnRestartTimer(old(Context()), old(Snapshot()), setupOk)
    {
      if pendingRestarts > 0 {
        pendingRestarts := pendingRestarts - 1;
        if id in store.sessions && setupOk {
          restartSockets := restartSockets + 1;
        }
      }
    }

    /** A restart socket's `connection.update` handler (index.js:475-517). */
    method OnRestartSocketUpdate(u: Update)
      modifies store
      ensures Snapshot() == PairingMachine.OnRestartSocketUpdate(Context(), old(Snapshot()), u)
    {
      if restartSockets > 0 && u.Opened? && u.registered && Truthy(u.exported) {
        ExportSession(u.exported.value);
      }
    }

    /** One event from the outside world. */
    method Handle(e: Event)
      modifies this, store
      ensures Context() == old(Context())
      ensures Snapshot() == Step(old(Context()), old(Snapshot()), e)
    {
      match e {
        case SocketUpdate(u) => OnSocketUpdate(u);
        case RestartTimer(ok) => OnRestartTimer(ok);
        case RestartSocketUpdate(u) => OnRestartSocketUpdate(u);
        case ReaperRun(now) =>
          store.CleanupExpired(now);
      }
    }

    /** An `await` during which the events `es` arrive in order. */
    method Await(es: seq<Event>)
      modifies this, store
      ensures Context() == old(Context())
      ensures Snapshot() == Deliver(old(Context()), old(Snapshot()), es)
    {
      var k := 0;
      while k < |es|
        invariant 0 <= k <= |es|
        invariant Context() == old(Context())
        invariant Deliver(Context(), Snapshot(), es[k..]) == Deliver(old(Context()), old(Snapshot()), es)
      {
        assert es[k..][1..] == es[k + 1..];
        Handle(es[k]);
        k := k + 1;
      }
    }

    /** The pairing loop (index.js:414-424): up to 180 one-second waits, left
        early once paired or once the restart budget is spent. */
    method WaitForPairing(ticks: seq<seq<Event>>) returns (elapsed: nat)
      modifies this, store
      ensures Context() == old(Context())
      ensures Snapshot() == WaitFrom(old(Context()), old(Snapshot()), ticks, 0).state
      ensures elapsed == WaitFrom(old(Context()), old(Snapshot()), ticks, 0).ticks
      ensures elapsed <= PAIRING_WINDOW_TICKS
    {
      var i := 0;
      while i < PAIRING_WINDOW_TICKS
        invariant 0 <= i <= PAIRING_WINDOW_TICKS
        invariant Context() == old(Context())
        invariant WaitFrom(Context(), Snapshot(), ticks, i) == WaitFrom(old(Context()), old(Snapshot()), ticks, 0)
      {
        if isPaired {
          break;
        }
        if restartRequired && restartAttempts >= MAX_RESTART_ATTEMPTS {
          break;
        }
        Await(TickEvents(ticks, i));
        i := i + 1;
      }
      elapsed := i;
    }

    /** The outer catch (index.js:436-439); removing the auth directory is not modelled. */
    method CatchFailure(message: string)
      modifies store
      ensures Snapshot() == AfterFailure(Context(), old(Snapshot()), message)
    {
      if id in store.sessions {
        store.sessions := store.sessions[id := store.sessions[id].(status := Error, pairingCode := Some(ERROR_PREFIX + message))];
      }
    }

    /** Everything after `status = 'processing'` (index.js:286-448). */
    method Launched(setup: Setup, settling: seq<Event>, code: Result<string, string>, now: int,
                    ticks: seq<seq<Event>>)
      modifies this, store
      ensures Context() == old(Context())
      ensures Snapshot() == Launch(old(Context()), old(Snapshot()), setup, settling, code, now, ticks)
    {
      match setup {
        case SetupFailed(message) =>
          CatchFailure(message);
        case SetupOk =>
          hasSocket := true;
          Await(settling);
          match code {
            case Err(message) =>
              CatchFailure(message);
            case Ok(c) =>
              if id in store.sessions {
                store.sessions := store.sessions[id := store.sessions[id].(pairingCode := Some(c), codeGeneratedAt := Some(now))];
              }
              var elapsed := WaitForPairing(ticks);
              if !isPaired {
                if id in store.sessions {
                  store.sessions := store.sessions[id := store.sessions[id].(status := Timeout)];
                }
              }
          }
      }
    }

    /** The whole run. `setup` says whether creating the first socket throws,
        `settling` is what arrives while the run waits 3 s and requests the
        code, `code` is the code request's result, `now` the clock when it
        returns, and `ticks[i]` what arrives during the loop's i-th wait.
        The store's invariant survives the run. */
    method Run(setup: Setup, settling: seq<Event>, code: Result<string, string>, now: int,
               ticks: seq<seq<Event>>) returns (started: bool)
      requires store.Valid()
      modifies this, store
      ensures started == (id in old(store.sessions))
      ensures !started ==> Snapshot() == old(Snapshot())
      ensures started ==> Context() == Ctx(id, old(store.sessions)[id].number, old(store.sessions)[id].sessionName)
      ensures started ==> Snapshot() == Launch(Context(), Started(old(Snapshot()), id), setup, settling, code, now, ticks)
      ensures store.Valid()
    {
      started := Start();
      if started {
        // index.js:317-321: the closure variables of this run
        hasSocket, isConnected, isPaired, restartRequired := false, false, false, false;
        restartAttempts, pendingRestarts, restartSockets := 0, 0, 0;
        assert Snapshot() == Started(old(Snapshot()), id);
        Launched(setup, settling, code, now, ticks);
        LaunchPreservesInv(Context(), old(Snapshot()), setup, settling, code, now, ticks);
      }
    }
  }
}
