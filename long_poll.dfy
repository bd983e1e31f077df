/** GET /api/pairing-code/:sessionId (index.js:150-207): answer at once when
    the record already has a code, otherwise look the record up once a second
    until a look-up decides or the 60 s timer wins. The store look-ups the
    poller makes are its input. */
module LongPoll {
  import opened Wrappers
  import opened Sessions

  const POLL_TIMEOUT_MS: nat := 60000
  const POLL_INTERVAL_MS: nat := 1000
  /** Look-ups that happen before the timeout: the one due at 60 s loses the tie. */
  const POLLS_BEFORE_TIMEOUT: nat := POLL_TIMEOUT_MS / POLL_INTERVAL_MS - 1

  /** The fields a successful reply carries besides the session id. */
  datatype CodeView = CodeView(code: string, sessionName: string, isConnected: bool, sessionString: Option<string>)

  datatype Reply =
    | Available(view: CodeView)  // 200 with `available: true`
    | NotFound                   // 404 "Session not found or expired"
    | SessionExpired             // 404 "Session expired"
    | GenerationFailed           // 404 "Failed to generate pairing code"
    | NotYetAvailable            // 200 with `available: false`

  /** What one look-up of the interval callback decides (index.js:173-189). */
  datatype Poll = Vanished | HasCode(view: CodeView) | Failed | KeepWaiting

  function View(s: Session): CodeView
    requires Truthy(s.pairingCode)
  {
    CodeView(s.pairingCode.value, s.sessionName, s.isConnected, s.sessionString)
  }

  function PollStep(current: Option<Session>): (p: Poll)
    ensures p.Vanished? <==> current.None?
    ensures p.HasCode? <==> current.Some? && Truthy(current.value.pairingCode)
    ensures p.HasCode? ==> p.view.code == current.value.pairingCode.value
                           && p.view.sessionString == current.value.sessionString
                           && p.view == View(current.value)
    ensures p.Failed? <==> current.Some? && !Truthy(current.value.pairingCode) && current.value.status == Error
  {
    match current
    case None => Vanished
    case Some(s) =>
      if Truthy(s.pairingCode) then HasCode(View(s))
      else if s.status == Error then Failed
      else KeepWaiting
  }

  function ReplyOf(p: Poll): Reply {
    match p
    case Vanished => SessionExpired
    case HasCode(v) => Available(v)
    case Failed => GenerationFailed
    case KeepWaiting => NotYetAvailable
  }

  /** The interval from look-up `k` on, raced against the timeout. */
  function AwaitFrom(lookups: seq<Option<Session>>, k: nat): Reply
    decreases POLLS_BEFORE_TIMEOUT - k
  {
    if k >= |lookups| || k >= POLLS_BEFORE_TIMEOUT then NotYetAvailable
    else
      var p := PollStep(lookups[k]);
      if p.KeepWaiting? then AwaitFrom(lookups, k + 1) else ReplyOf(p)
  }

  /** `Promise.race([waitForCode(), timeoutPromise])`; `lookups[k]` is the
      record seen one second after `lookups[k - 1]`. */
  function AwaitCode(lookups: seq<Option<Session>>): Reply {
    AwaitFrom(lookups, 0)
  }

  /** The whole handler; `lookup` is the record at arrival. */
  function RequestCode(lookup: Option<Session>, lookups: seq<Option<Session>>): (r: Reply)
    ensures lookup.None? ==> r == NotFound
    ensures lookup.Some? && Truthy(lookup.value.pairingCode) ==> r == Available(View(lookup.value))
    ensures lookup.Some? && !Truthy(lookup.value.pairingCode) ==> r == AwaitCode(lookups)
  {
    match lookup
    case None => NotFound
    case Some(s) => if Truthy(s.pairingCode) then Available(View(s)) else AwaitCode(lookups)
  }

  function Polls(lookups: seq<Option<Session>>): nat {
    Min(|lookups|, POLLS_BEFORE_TIMEOUT)
  }

  lemma {:induction false} AwaitFromTimesOut(lookups: seq<Option<Session>>, k: nat)
    requires k <= Polls(lookups)
    ensures AwaitFrom(lookups, k) == NotYetAvailable
            <==> forall j :: k <= j < Polls(lookups) ==> PollStep(lookups[j]).KeepWaiting?
    decreases POLLS_BEFORE_TIMEOUT - k
  {
    if k < Polls(lookups) {
      AwaitFromTimesOut(lookups, k + 1);
    }
  }

  /** The reply is "not yet available" exactly when every look-up made before
      the timeout found a record with neither a code nor an error. */
  lemma AwaitCodeTimesOut(lookups: seq<Option<Session>>)
    ensures AwaitCode(lookups) == NotYetAvailable
            <==> forall j :: 0 <= j < Polls(lookups) ==> PollStep(lookups[j]).KeepWaiting?
  {
    AwaitFromTimesOut(lookups, 0);
  }

  lemma {:induction false} AwaitFromFirstDecision(lookups: seq<Option<Session>>, k: nat, i: nat)
    requires i <= k < Polls(lookups)
    requires !PollStep(lookups[k]).KeepWaiting?
    requires forall j :: i <= j < k ==> PollStep(lookups[j]).KeepWaiting?
    ensures AwaitFrom(lookups, i) == ReplyOf(PollStep(lookups[k]))
    decreases k - i
  {
    if i < k {
      AwaitFromFirstDecision(lookups, k, i + 1);
    }
  }

  /** The first look-up that decides ends the wait with its answer: a code
      that appears after the call is returned at the next look-up, not after
      the full timeout. */
  lemma AwaitCodeReturnsFirstDecision(lookups: seq<Option<Session>>, k: nat)
    requires k < Polls(lookups)
    requires !PollStep(lookups[k]).KeepWaiting?
    requires forall j :: 0 <= j < k ==> PollStep(lookups[j]).KeepWaiting?
    ensures AwaitCode(lookups) == ReplyOf(PollStep(lookups[k]))
  {
    AwaitFromFirstDecision(lookups, k, 0);
  }

  /** A failed code request leaves `ERROR: <message>` in `pairingCode`, which is
      truthy, so the poller returns it as an available code; the
      "Failed to generate pairing code" reply needs an `error` record that has
      no code. */
  lemma FailedCodeRequestReportedAsCode(s: Session, message: string, lookups: seq<Option<Session>>)
    requires s.status == Error && s.pairingCode == Some(ERROR_PREFIX + message)
    ensures RequestCode(Some(s), lookups) == Available(CodeView(ERROR_PREFIX + message, s.sessionName, s.isConnected, s.sessionString))
  {
  }
}
