/** The session record kept for every pairing request, and the pure helpers
    that build it and that the reaper uses to age it (index.js:40-63, 122-133). */
module Sessions {
  import opened Wrappers

  type SessionId = string

  /** Age in milliseconds past which the reaper deletes a record: ten minutes. */
  const PENDING_EXPIRY: int := 10 * 60 * 1000

  /** Text that starts every session name. */
  const NAME_PREFIX: string := "ICEY_MD_"

  /** How many leading characters of the session id go into its name. */
  const NAME_ID_CHARS: nat := 8

  /** Marker written in place of a pairing code when the pairing process fails. */
  const ERROR_PREFIX: string := "ERROR: "

  datatype Status = Waiting | Processing | Completed | Timeout | Error

  datatype Session = Session(
    number: string,
    sessionId: SessionId,
    sessionName: string,
    createdAt: int,
    isProcessed: bool,
    pairingCode: Option<string>,
    codeGeneratedAt: Option<int>,
    sessionString: Option<string>,
    isConnected: bool,
    status: Status)

  /** What `saveSessionToFile` writes to sessions/<id>.json (its two wall-clock
      timestamps are not modelled). */
  datatype Export = Export(sessionString: string, number: string, sessionName: string)

  /** JavaScript truthiness of a string field that may be null: null and "" are falsy. */
  predicate Truthy(o: Option<string>) {
    o.Some? && o.value != ""
  }

  /** `Map.prototype.get`: the record stored under `id`, if any. */
  function Lookup(m: map<SessionId, Session>, id: SessionId): Option<Session> {
    if id in m then Some(m[id]) else None
  }

  function Min(a: int, b: int): int {
    if a < b then a else b
  }

  // ---------------------------------------------------------------------------
  // Session names (index.js:50-52)
  // ---------------------------------------------------------------------------

  /** `toUpperCase` on one character of a session id; ids are base-36 text, so
      only the letters a-z have an upper-case form here. */
  function ToUpper(c: char): char {
    if 'a' <= c <= 'z' then (c as int - 32) as char else c
  }

  function ToLower(c: char): char {
    if 'A' <= c <= 'Z' then (c as int + 32) as char else c
  }

  function UpperCase(s: string): string {
    seq(|s|, i requires 0 <= i < |s| => ToUpper(s[i]))
  }

  function LowerCase(s: string): string {
    seq(|s|, i requires 0 <= i < |s| => ToLower(s[i]))
  }

  /** `sessionId.substring(0, 8)`: the first eight characters, or all of a shorter id. */
  function IdPrefix(id: SessionId): (p: string)
    ensures |p| == Min(|id|, NAME_ID_CHARS)
    ensures p <= id
  {
    id[..Min(|id|, NAME_ID_CHARS)]
  }

  /** The name shown to the user for a session. */
  function SessionName(id: SessionId): (name: string)
    ensures |name| == |NAME_PREFIX| + Min(|id|, NAME_ID_CHARS)
    ensures name[..|NAME_PREFIX|] == NAME_PREFIX
    ensures forall i :: 0 <= i < Min(|id|, NAME_ID_CHARS) ==> name[|NAME_PREFIX| + i] == ToUpper(id[i])
  {
    NAME_PREFIX + UpperCase(IdPrefix(id))
  }

  /** The characters `generateSessionId` produces: base-36 digits in lower case. */
  predicate IsBase36Digit(c: char) {
    '0' <= c <= '9' || 'a' <= c <= 'z'
  }

  predicate IsGeneratedId(id: SessionId) {
    forall i :: 0 <= i < |id| ==> IsBase36Digit(id[i])
  }

  /** For a generated id, the name loses nothing of the id's first eight
      characters: lower-casing the part after the prefix gives them back. */
  lemma SessionNameRecoversPrefix(id: SessionId)
    requires IsGeneratedId(id)
    ensures LowerCase(SessionName(id)[|NAME_PREFIX|..]) == IdPrefix(id)
  {
    var p := IdPrefix(id);
    var tail := SessionName(id)[|NAME_PREFIX|..];
    assert tail == UpperCase(p);
    forall i | 0 <= i < |p|
      ensures LowerCase(tail)[i] == p[i]
    {
      LowerUndoesUpper(p[i]);
    }
  }

  lemma LowerUndoesUpper(c: char)
    requires IsBase36Digit(c)
    ensures ToLower(ToUpper(c)) == c
  {
  }

  /** Two generated ids get the same name exactly when their first eight
      characters agree. */
  lemma SessionNamesCollide(a: SessionId, b: SessionId)
    requires IsGeneratedId(a) && IsGeneratedId(b)
    ensures SessionName(a) == SessionName(b) <==> IdPrefix(a) == IdPrefix(b)
  {
    if SessionName(a) == SessionName(b) {
      SessionNameRecoversPrefix(a);
      SessionNameRecoversPrefix(b);
    }
  }

  // ---------------------------------------------------------------------------
  // Trimming the caller's number (index.js:123)
  // ---------------------------------------------------------------------------

  /** The characters `String.prototype.trim` removes: ECMAScript WhiteSpace and
      LineTerminator code points. */
  predicate IsWhiteSpace(c: char) {
    var n := c as int;
    n == 0x09 || n == 0x0A || n == 0x0B || n == 0x0C || n == 0x0D || n == 0x20
    || n == 0xA0 || n == 0x1680 || (0x2000 <= n <= 0x200A) || n == 0x2028
    || n == 0x2029 || n == 0x202F || n == 0x205F || n == 0x3000 || n == 0xFEFF
  }

  predicate AllWhiteSpace(s: string) {
    forall k :: 0 <= k < |s| ==> IsWhiteSpace(s[k])
  }

  /** Number of white-space characters at the start of `s`. */
  function LeadingWhiteSpace(s: string): (n: nat)
    ensures n <= |s|
    ensures forall k :: 0 <= k < n ==> IsWhiteSpace(s[k])
    ensures n < |s| ==> !IsWhiteSpace(s[n])
  {
    if s != [] && IsWhiteSpace(s[0]) then 1 + LeadingWhiteSpace(s[1..]) else 0
  }

  /** Number of white-space characters at the end of `s`. */
  function TrailingWhiteSpace(s: string): (n: nat)
    ensures n <= |s|
    ensures forall k :: |s| - n <= k < |s| ==> IsWhiteSpace(s[k])
    ensures n < |s| ==> !IsWhiteSpace(s[|s| - n - 1])
  {
    if s != [] && IsWhiteSpace(s[|s| - 1]) then 1 + TrailingWhiteSpace(s[..|s| - 1]) else 0
  }

  /** `String.prototype.trim`. */
  function Trim(s: string): (t: string)
    ensures |t| <= |s|
    ensures t != [] ==> !IsWhiteSpace(t[0]) && !IsWhiteSpace(t[|t| - 1])
    ensures t == [] <==> AllWhiteSpace(s)
  {
    var lead := LeadingWhiteSpace(s);
    var rest := s[lead..];
    var trail := TrailingWhiteSpace(rest);
    assert lead < |s| ==> rest[0] == s[lead];
    rest[..|rest| - trail]
  }

  /** Trim removes exactly the white space around a text that starts and ends
      with a non-white-space character. */
  lemma TrimOfPadded(pre: string, t: string, post: string)
    requires AllWhiteSpace(pre) && AllWhiteSpace(post)
    requires t != [] ==> !IsWhiteSpace(t[0]) && !IsWhiteSpace(t[|t| - 1])
    ensures Trim(pre + t + post) == t
  {
    var s := pre + t + post;
    if t == [] {
      assert s == pre + post;
      assert AllWhiteSpace(s) by {
        forall k | 0 <= k < |s| ensures IsWhiteSpace(s[k]) {
          if k < |pre| { assert s[k] == pre[k]; } else { assert s[k] == post[k - |pre|]; }
        }
      }
    } else {
      var lead := LeadingWhiteSpace(s);
      assert s[|pre|] == t[0];
      assert lead == |pre|;
      var rest := s[lead..];
      assert rest == t + post;
      var trail := TrailingWhiteSpace(rest);
      assert rest[|t| - 1] == t[|t| - 1];
      assert trail == |post|;
      assert rest[..|rest| - trail] == t;
    }
  }

  /** Trimming a trimmed number changes nothing. */
  lemma TrimIdempotent(s: string)
    ensures Trim(Trim(s)) == Trim(s)
  {
    var t := Trim(s);
    assert [] + t + [] == t;
    TrimOfPadded([], t, []);
  }

  // ---------------------------------------------------------------------------
  // Ageing (index.js:55-63)
  // ---------------------------------------------------------------------------

  /** The reaper's test: the record is strictly older than the retention window. */
  predicate Expired(s: Session, now: int) {
    now - s.createdAt > PENDING_EXPIRY
  }

  /** The store after a reaper run at `now`: the records that are not expired. */
  function Unexpired(m: map<SessionId, Session>, now: int): (r: map<SessionId, Session>)
    ensures r.Keys <= m.Keys
    ensures forall k :: k in r ==> r[k] == m[k] && !Expired(m[k], now)
    ensures forall k :: k in m && !Expired(m[k], now) ==> k in r
  {
    map k | k in m && !Expired(m[k], now) :: m[k]
  }

  /** The invariant the pairing flow is meant to keep: a completed session
      has its session string and is connected. */
  ghost predicate CompletedExported(m: map<SessionId, Session>) {
    forall k :: k in m && m[k].status == Completed ==> Truthy(m[k].sessionString) && m[k].isConnected
  }
}
