# Pairing-session service: a verified model of its session lifecycle

The service hands out short-lived WhatsApp pairing sessions. A caller posts a
phone number and gets a session id. The server then opens a socket to
WhatsApp, asks for a pairing code and long-polls it back to the caller. When
the device shows up as registered, it exports the credentials as a session
string. Everything lives in one process-wide map from session id to session
record, and a reaper deletes records older than ten minutes.

This project models that lifecycle in Dafny:

- `wrappers.dfy`: `Option` and `Result`.
- `sessions.dfy` (module `Sessions`): the session record and its status values. Also the session name derived from the id, JavaScript `trim`, and the reaper's age test.
- `store.dfy` (module `Store`): class `SessionStore`, holding the session map and the exported session files. It has the POST /api/number guard and record creation, and the reaper loop that deletes expired records in place.
- `pairing_machine.dfy` (module `PairingMachine`): the pairing process of one session as a deterministic state machine over the store and the run's closure variables. Socket updates, restart timers, restart sockets and reaper runs are explicit events. The module also holds the lemmas about the machine.
- `pairing_driver.dfy` (module `PairingDriver`): class `Pairing`, one run of `startWhatsAppConnection` with the restart connections it starts. Its fields are the closure variables and its handlers write the store in place. The 180-iteration pairing loop is a `while` loop. Each method is proved equal to the matching function of `PairingMachine`.
- `long_poll.dfy` (module `LongPoll`): the long-poll handler. Its input is the sequence of store look-ups the one-second interval makes before the 60 s timer fires.
- `queries.dfy` (module `Queries`): the session-data guard and the statistics counts.

Inputs that stand for the outside world:

- Session ids and clock readings are parameters.
- Whether the auth-state setup throws is a parameter.
- The result of the code request is a parameter.
- What `exportSessionString` returns (a string or null) is a parameter.
- Connection updates carry `registered` and the disconnect status code.
- In the pairing loop, `ticks[i]` lists the events that arrive during the loop's i-th one-second wait.

The close reason for "logged out" is the connection library's `DisconnectReason.loggedOut`, 401. The value 515 comes from index.js.

## Where the code and its evident intent disagree (the model follows the code)

- An export-once guard is evidently intended. The code has none: a second open+registered event overwrites `sessionString` and the session file (`RepeatedOpenOverwrites`).
- A restart socket's open handler completes the session but never sets the run's `isPaired`. The loop therefore keeps waiting, and at the end `timeout` overwrites `completed`. The session string stays set (`RestartCompletionOverwrittenByTimeout`). The invariant "completed implies session string and connected" still holds in every state (`LaunchPreservesInv`).
- Nothing detaches the socket handlers or cancels the restart timers when the pairing window ends. Connection attempts and status changes can still happen after the run has written `timeout`. When the budget is spent the loop leaves with up to three restarts still scheduled, and a restart socket that opens registered afterwards turns `timeout` back into `completed` and writes the session file (`LateRestartCompletesAfterTimeout`).
- When the restart budget is spent, the loop exits early and the status becomes `timeout`, not `error` (`PairingLoopOutcome`).
- A failed code request stores `ERROR: <message>` in `pairingCode`. The long-poll tests the code before the status, so it answers with that marker as an available code. The failure reply appears only for an `error` record that has no code (`FailedCodeRequestReportedAsCode`).
- Only the first socket has a close handler. Restart sockets ignore close events, so only close(515) on the first socket counts against the budget.
- The reaper deletes records whose age is strictly greater than ten minutes. The statistics count only records strictly younger than ten minutes. A record exactly ten minutes old is kept but not counted (`BoundaryAgeKeptButInactive`).
- Reaping does not stop a run. Later writes to the record are invisible, because the run's object is detached from the map. The session file is still written on a later export (`LaunchConfined`, `Complete`).
- The guard refuses only an absent or empty number. A number of only spaces is accepted and stored as "" (`BlankNumberAccepted`).

## Model

| member | source | states |
|---|---|---|
| `Sessions.SessionName` | index.js:50-52 | the name is `ICEY_MD_` followed by the upper-cased first eight characters of the id (all of a shorter id), character by character |
| `Sessions.SessionNameRecoversPrefix` | index.js:45-52 | for an id of base-36 digits, lower-casing the name after its prefix gives back the id's first eight characters |
| `Sessions.SessionNamesCollide` | index.js:45-52 | two generated ids get the same name if and only if their first eight characters agree |
| `Sessions.Trim` | index.js:123 | the trimmed number is no longer than the input, neither starts nor ends with white space, and is empty exactly when the input is all white space |
| `Sessions.TrimOfPadded` | index.js:123 | trim removes exactly the white space around a text that starts and ends with a non-white-space character |
| `Sessions.TrimIdempotent` | index.js:123 | trimming a trimmed number changes nothing |
| `Store.CheckNumber` | index.js:113-117 | an absent or empty number is refused with "Number is required"; any other number is accepted and trimmed |
| `Store.BlankNumberAccepted` | index.js:115-123 | a number of only white space passes the guard and becomes "" |
| `Store.NewSession` | index.js:122-133 | a new record is `waiting`, has no code, no session string and is not connected, carries the id, the number and the derived name, and expires exactly after ten minutes from its creation time |
| `Store.SessionStore.Create` | index.js:112-146 | on a refused number nothing changes; otherwise exactly one record is added under the id, with status `waiting`, no code, no code time, no session string, not connected, not processed, the trimmed number, the creation time and the derived name; the reply carries the id and the name; the store invariant is kept |
| `Sessions.Unexpired` | index.js:57-61 | the reaper's result keeps exactly the records that are not expired, each unchanged, and adds none |
| `Store.SessionStore.CleanupExpired` | index.js:55-63 | afterwards the map is the old map without its expired records: no record with `now - createdAt > PENDING_EXPIRY` is left, every other record is kept unchanged, nothing is added, the files are untouched |
| `PairingDriver.Pairing.constructor` | index.js:317-321 | a run starts unpaired, with no restart required, zero restart attempts and no socket |
| `PairingDriver.Pairing.Start` | index.js:279-283 | for an absent id nothing changes and the run does not start; for a present id its record becomes `processing`, nothing else changes and the run captures the record's number and name |
| `PairingDriver.Pairing.ExportSession` | index.js:339-346 | the record (if still in the map) gets the session string, `isConnected` and `completed`, and the session file is written with the captured number and name |
| `PairingDriver.Pairing.OnSocketUpdate` | index.js:324-397 | the new store and closure variables equal `PairingMachine.OnSocketUpdate` of the old ones |
| `PairingDriver.Pairing.OnRestartTimer` | index.js:384-390 | a pending restart is consumed, and a restart socket is added only if the record is still present and its setup succeeds |
| `PairingDriver.Pairing.OnRestartSocketUpdate` | index.js:475-517 | a restart socket's open+registered with a successful export completes the record; nothing else changes, and the closure variables are untouched |
| `PairingDriver.Pairing.Handle` | index.js:324-518 | any event changes store and run exactly as `PairingMachine.Step` does; a reaper run goes through the in-place cleanup loop |
| `PairingDriver.Pairing.Await` | index.js:400 | an await during which a batch of events arrives leaves the state `PairingMachine.Deliver` gives |
| `PairingDriver.Pairing.WaitForPairing` | index.js:414-424 | the loop's final state and iteration count are those of `PairingMachine.WaitFrom`, and it runs at most 180 iterations |
| `PairingDriver.Pairing.CatchFailure` | index.js:436-439 | the record (if present) becomes `error` with `pairingCode` = `ERROR: ` + message |
| `PairingDriver.Pairing.Launched` | index.js:286-448 | after the start, the final state is `PairingMachine.Launch` of the state it begins in, for the given setup result, events, code result and loop events |
| `PairingDriver.Pairing.Run` | index.js:279-449 | an absent id changes nothing; otherwise the final state is `PairingMachine.Launch` from the started state with fresh closure variables; a store where completed implies exported stays so |
| `PairingMachine.Complete` | index.js:339-346 | the record (if still present) is `completed`, connected and carries the string, the session file holds the string, no record appears or disappears and the closure variables are unchanged |
| `PairingMachine.OnSocketUpdate` | index.js:324-397 | the first socket's handler; its cases are stated by `RegisteredOpenCompletes`, `RegisteredOpenWithoutExport`, `RecoverableClose` and `LoggedOutClose` |
| `PairingMachine.OnRestartTimer` | index.js:452-473 | a fired timer consumes one scheduled restart and adds a restart socket only when the record is still present and setup succeeds; the store, `isPaired` and the attempt counter are unchanged |
| `PairingMachine.OnRestartSocketUpdate` | index.js:475-517 | a restart socket never changes the closure variables, so never sets `isPaired`; only open+registered with a successful export changes anything |
| `PairingMachine.Step` | index.js:324-518 | one event of any source; its invariant and isolation are `StepPreservesInv` and `StepConfined` |
| `PairingMachine.Deliver` | index.js:400 | a batch of events in order; stated by `DeliverPreservesInv`, `DeliverConfined`, `DeliverKeepsPaired` and `DeliverPairs` |
| `PairingMachine.EndWait` | index.js:426-429 | a paired run is left as it is; an unpaired run's record (if present) becomes `timeout`; closure variables and files are unchanged |
| `PairingMachine.Launch` | index.js:286-448 | a whole run; stated by `LaunchPreservesInv`, `LaunchConfined`, `FailureMarksError` and `RunTimesOutIffUnpaired` |
| `PairingMachine.WaitFrom` | index.js:414-424 | the loop ends within 180 iterations and ends before the 180th only when paired or when restarts are required and exhausted |
| `PairingMachine.StepPreservesInv` | index.js:329-395 | no event breaks the invariant: completed implies a session string and connected, restart attempts at most 3, and restarts scheduled plus restart sockets at most the attempts |
| `PairingMachine.DeliverPreservesInv` | index.js:324-397 | any sequence of events keeps the invariant |
| `PairingMachine.WaitFromPreservesInv` | index.js:414-424 | the pairing loop keeps the invariant |
| `PairingMachine.LaunchPreservesInv` | index.js:279-449 | starting and a whole run keep the invariant, whatever the socket, timers and reaper do |
| `PairingMachine.StepConfined` | index.js:329-395 | one event changes at most the run's own record and adds no record |
| `PairingMachine.DeliverConfined` | index.js:324-397 | a sequence of events changes at most the run's own record and adds no record |
| `PairingMachine.WaitFromConfined` | index.js:414-424 | the pairing loop changes at most the run's own record and adds no record |
| `PairingMachine.LaunchConfined` | index.js:279-449 | a whole run never touches another session's record and never re-creates a reaped one |
| `PairingMachine.RegisteredOpenCompletes` | index.js:329-346 | on open+registered with a successful export, the session string is set, `isConnected` is true, the status is `completed` and `isPaired` is true, all together, and the session file holds the string |
| `PairingMachine.RegisteredOpenWithoutExport` | index.js:334-346 | on open+registered whose export fails, the run is paired but record and files are unchanged |
| `PairingMachine.RepeatedOpenOverwrites` | index.js:339-344 | a second open+registered overwrites the session string and the file with the second export |
| `PairingMachine.RecoverableClose` | index.js:374-391 | close(515) sets `restartRequired` and raises the counter by one, scheduling a restart, only while the counter is below 3; then it stays at most 3; record and files are unchanged |
| `PairingMachine.ConsecutiveRecoverableCloses` | index.js:374-391 | N close(515) events leave the counter at min(start + N, 3) and schedule exactly that many new restarts |
| `PairingMachine.LoggedOutClose` | index.js:392-395 | close(loggedOut) makes the record `error` and leaves the restart counter and every other closure variable as they were |
| `PairingMachine.FailureMarksError` | index.js:431-439 | when setup or the code request fails, the record ends `error` with `pairingCode` = `ERROR: ` + message |
| `PairingMachine.PairingLoopOutcome` | index.js:414-429 | the loop runs at most 180 iterations and leaves early only when paired or out of restarts; a paired run keeps its status; an unpaired run ends `timeout` |
| `PairingMachine.DeliverKeepsUnpaired` | index.js:475-494 | events other than open+registered on the first socket never set `isPaired` |
| `PairingMachine.WaitFromKeepsUnpaired` | index.js:414-424 | a loop without open+registered on the first socket ends unpaired |
| `PairingMachine.UnpairedRunTimesOut` | index.js:426-429 | without open+registered on the first socket the record ends `timeout` |
| `PairingMachine.DeliverKeepsPaired` | index.js:324-518 | no event clears `isPaired` or removes the first socket |
| `PairingMachine.DeliverPairs` | index.js:329-337 | an open+registered on the first socket anywhere in a batch leaves the run paired |
| `PairingMachine.WaitFromPairs` | index.js:414-424 | an open+registered during a wait the loop performed leaves the loop paired |
| `PairingMachine.DeliverNeverTimesOut` | index.js:324-518 | no event writes `timeout` |
| `PairingMachine.WaitFromNeverTimesOut` | index.js:414-424 | the pairing loop never writes `timeout` |
| `PairingMachine.RunTimesOutIffUnpaired` | index.js:414-429 | a run whose code arrived ends `timeout` if and only if the pairing loop ended unpaired |
| `PairingMachine.SettlingPairingPreventsTimeout` | index.js:399-429 | an open+registered on the first socket while the run settles skips the loop and the run does not end `timeout` |
| `PairingMachine.WindowPairingPreventsTimeout` | index.js:414-429 | an open+registered on the first socket during a wait the loop performed means the run does not end `timeout` |
| `PairingMachine.LateRestartCompletesAfterTimeout` | index.js:384-390 | three close(515) in the first wait end the loop after one iteration with three restarts scheduled; the run writes `timeout`, and a restart that opens registered afterwards makes the record `completed` with the session file written |
| `PairingMachine.QuietWait` | index.js:414-424 | iterations without events leave the state unchanged |
| `PairingMachine.RestartCompletionOverwrittenByTimeout` | index.js:483-494 | after close(515), a restart and a registered open on the restart socket, the record is `completed` while the run is unpaired; when the window ends the record is `timeout` with its session string still set |
| `LongPoll.PollStep` | index.js:173-189 | a look-up decides "expired" exactly when the record is gone, "code" exactly when it has a code (returning that code and the record's name, connection flag and session string), "failed" exactly when it has no code and is `error`, and otherwise keeps waiting |
| `LongPoll.AwaitFrom` | index.js:170-198 | the race of the one-second look-ups against the 60 s timer; stated by `AwaitFromTimesOut` and `AwaitFromFirstDecision` |
| `LongPoll.AwaitCode` | index.js:170-198 | the wait from the first look-up; stated by `AwaitCodeTimesOut` and `AwaitCodeReturnsFirstDecision` |
| `LongPoll.ReplyOf` | index.js:200-206 | the mapping of a wait's outcome to the reply; the replies it gives are stated by `RequestCode` and `FailedCodeRequestReportedAsCode` |
| `LongPoll.RequestCode` | index.js:150-167 | an unknown id is "not found"; a record with a code is answered at once with it; otherwise the answer is that of the timed wait |
| `LongPoll.AwaitCodeTimesOut` | index.js:194-205 | the reply is "no code available yet" exactly when none of the 59 look-ups before the 60 s timeout decided |
| `LongPoll.AwaitCodeReturnsFirstDecision` | index.js:170-198 | the first look-up that decides ends the wait with its answer, so a code that appears later is returned at the next look-up |
| `LongPoll.FailedCodeRequestReportedAsCode` | index.js:158-167 | a record left by a failed code request is answered with its `ERROR:` marker as an available code |
| `Queries.GetSessionData` | index.js:237-257 | an unknown id is "not found"; a record without a session string is "not connected yet"; otherwise the reply carries the record's id, number and session string |
| `Queries.CompletedSessionHasData` | index.js:241-247 | in a store where completed implies exported, every completed session's data can be fetched with its session string |
| `Queries.Select` | index.js:233-235 | a filter keeps every record that satisfies it, as often as the input has it, and drops every other one; it returns no more elements than it is given |
| `Queries.GetStats` | index.js:232-271 | the total counts exactly the records younger than ten minutes, and each other field counts exactly the active records in that status (or connected); waiting, processing and error counts together, and the connected count, are at most the active total |
| `Queries.SelectPermutation` | index.js:233-235 | reordering the records reorders the selection and keeps its contents |
| `Queries.StatusCountsBounded` | index.js:259-262 | the waiting, processing and error counts of any list add up to at most its length |
| `Queries.StatsIgnoreOrder` | index.js:233-235 | two enumerations of the same records give the same statistics |
| `Queries.BoundaryAgeKeptButInactive` | index.js:233-235 | a record exactly ten minutes old survives the reaper but is not counted as active |

## Left out

- Express routing, CORS, static files, the port and the shape of the HTTP responses. Only the handlers' decisions are modelled.
- The session-status endpoint GET /api/session/:sessionId (index.js:210-229). It only formats the record.
- The route registration nested inside the stats handler (index.js:237). The session-data handler is modelled as an ordinary read.
- The connection library: socket creation, auth-state loading, version fetch, `creds.update`/`saveCreds`, `sendMessage` and the `ws.close` 3 s after registration. The close that follows can arrive as an ordinary close event.
- `exportSessionString` (index.js:69-88). It serialises opaque credentials; its result is an input.
- `generateSessionId` (index.js:45-47). It uses `Math.random` and `Date.now`; the id is an input. `IsGeneratedId` describes its alphabet.
- The filesystem. Auth-directory removal (index.js:291-293, 442-447) is not modelled. `saveSessionToFile` is modelled as the store's `exports` map, without its two timestamps or any exception it may throw.
- Real timers: the reaper's 60 s interval, the 3 s settling wait, the 2 s restart delay, the 1 s loop waits and the long-poll interval and timeout. All of them are replaced by explicit events or look-up sequences.
- The tie between the 60 s long-poll timer and the 60th one-second look-up is decided for the timer (59 look-ups).
- Other sessions' runs are not interleaved in one model. `LaunchConfined` shows that a run touches only its own record.
- Logging (chalk, console) and the SIGINT/SIGTERM handlers.
- A `number` that is not a string (for which `trim` throws).
- Sessions.ToUpper: maps only a-z, not JavaScript's full Unicode case mapping. Generated ids are base-36 text, so this covers every id the service creates.
- Queries.GetStats: takes one clock reading for all records, where the source reads `Date.now()` once per record (index.js:234); the readings of one synchronous pass can differ only by the clock advancing meanwhile.
- Events that arrive in `ticks[i]` for an iteration the loop never reached are not delivered by the run; what a caller may deliver afterwards is modelled with `Pairing.Handle` and `PairingMachine.Deliver` (see `LateRestartCompletesAfterTimeout`).
- The `isConnected` closure variable of a run is kept in step but never read, as in the source.
