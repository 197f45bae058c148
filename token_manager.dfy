/**
 * The token cache and hourly rate limiter of TokenManager.
 *
 * Time is a whole number of seconds since DateTime.MinValue, passed in by the
 * caller wherever the source reads the clock. The network exchange of a
 * client-credentials grant is an abstract IssueOutcome. The source's null
 * strings are written "" here: the only uses of them (IsNullOrEmpty and string
 * interpolation) treat null and "" alike.
 */
module TokenManagement {

  /** The constant cap on issuance requests per window. */
  const MaxRequestsPerHour: int := 5
  /** AddHours(1): the length of one rate-limit window. */
  const WindowSeconds: int := 3600
  /** AddMinutes(-5): a token stops being served this long before it expires. */
  const SafetyMarginSeconds: int := 300

  /** The range of a C# int: the type of expires_in in a token response. */
  newtype int32 = x: int | -0x8000_0000 <= x < 0x8000_0000

  /** The body of a successful token response, once deserialized. */
  datatype TokenResponse = TokenResponse(tokenType: string, expiresIn: int32, accessToken: string)

  /**
   * What the network exchange produced: a deserialized response, or a failure
   * (transport error, non-success status, unreadable body).
   */
  datatype IssueOutcome = Issued(response: TokenResponse) | IssueFailed

  /** The cached credential: access token, its type and its absolute expiry. */
  datatype Credential = Credential(accessToken: string, tokenType: string, expiry: int)

  /** The rate-limit window: issuance attempts counted, and when the count resets. */
  datatype Window = Window(count: int, resetAt: int)

  /** All five mutable fields of a TokenManager, as one value. */
  datatype ManagerState = ManagerState(cred: Credential, window: Window)

  /** What the first, locked phase of a token request decides. */
  datatype Decision = RateLimited | Cached(token: string) | MustIssue

  /** The two exceptions a token request can end in. */
  datatype TokenError = RateLimitExceeded | IssuanceFailed

  datatype Result<T> = Ok(value: T) | Err(error: TokenError)

  /** The state a freshly constructed manager starts in, when the clock reads `now`. */
  function InitialState(now: int): ManagerState
  {
    ManagerState(Credential("", "", 0), Window(0, now + WindowSeconds))
  }

  /** The count stays between zero and the cap. */
  predicate Inv(s: ManagerState)
  {
    0 <= s.window.count <= MaxRequestsPerHour
  }

  /** The window after the rollover check: a new window once `now` is past the reset time. */
  function Rolled(w: Window, now: int): Window
  {
    if now > w.resetAt then Window(0, now + WindowSeconds) else w
  }

  /** A cached credential is served only if it is non-empty and not within the safety margin. */
  predicate Usable(c: Credential, now: int)
  {
    c.accessToken != "" && now < c.expiry - SafetyMarginSeconds
  }

  /**
   * The decide phase: roll the window, refuse at the cap, serve a usable
   * cached token, and otherwise reserve one slot for an issuance attempt.
   */
  function Decided(s: ManagerState, now: int): (Decision, ManagerState)
  {
    var w := Rolled(s.window, now);
    if w.count >= MaxRequestsPerHour then
      (RateLimited, ManagerState(s.cred, w))
    else if Usable(s.cred, now) then
      (Cached(s.cred.accessToken), ManagerState(s.cred, w))
    else
      (MustIssue, ManagerState(s.cred, Window(w.count + 1, w.resetAt)))
  }

  /**
   * The commit phase after an issuance attempt: a failure gives the reserved
   * slot back, a response replaces the whole credential.
   */
  function Committed(s: ManagerState, now: int, outcome: IssueOutcome): (Result<string>, ManagerState)
  {
    match outcome
    case IssueFailed =>
      (Err(IssuanceFailed), ManagerState(s.cred, Window(s.window.count - 1, s.window.resetAt)))
    case Issued(resp) =>
      var c := Credential(resp.accessToken, resp.tokenType, now + resp.expiresIn as int);
      (Ok(c.accessToken), ManagerState(c, s.window))
  }

  /** One whole token request: decide, then issue and commit when no cached token can be used. */
  function Next(s: ManagerState, now: int, outcome: IssueOutcome): (Result<string>, ManagerState)
  {
    var d := Decided(s, now);
    match d.0
    case RateLimited => (Err(RateLimitExceeded), d.1)
    case Cached(t) => (Ok(t), d.1)
    case MustIssue => Committed(d.1, now, outcome)
  }

  /** The authorization header value: the token type, one space, the token. */
  function Header(tokenType: string, token: string): (h: string)
    ensures |h| == |tokenType| + 1 + |token|
    ensures h[..|tokenType|] == tokenType && h[|tokenType|] == ' '
    ensures h[|tokenType| + 1..] == token
  {
    tokenType + " " + token
  }

  /** One header request: a token request, then the header built from the token type in the new state. */
  function HeaderNext(s: ManagerState, now: int, outcome: IssueOutcome): (Result<string>, ManagerState)
  {
    var n := Next(s, now, outcome);
    match n.0
    case Ok(token) => (Ok(Header(n.1.cred.tokenType, token)), n.1)
    case Err(e) => (Err(e), n.1)
  }

  /** A request from a state within the cap leaves a state within the cap. */
  lemma NextKeepsInv(s: ManagerState, now: int, outcome: IssueOutcome)
    requires Inv(s)
    ensures Inv(Next(s, now, outcome).1)
  {
  }

  class TokenManager {
    var accessToken: string
    var tokenType: string
    var expiryTime: int
    var requestCount: int
    var requestCountResetTime: int

    /** The five fields as one value. */
    function Snapshot(): ManagerState
      reads this
    {
      ManagerState(Credential(accessToken, tokenType, expiryTime),
                   Window(requestCount, requestCountResetTime))
    }

    ghost predicate Valid()
      reads this
    {
      Inv(Snapshot())
    }

    constructor (now: int)
      ensures Valid()
      ensures Snapshot() == InitialState(now)
    {
      accessToken, tokenType, expiryTime := "", "", 0;
      requestCount := 0;
      requestCountResetTime := now + WindowSeconds;
    }

    /** The locked checks before an issuance attempt, and the reservation of a slot. */
    method Decide(now: int) returns (d: Decision)
      modifies this
      ensures (d, Snapshot()) == Decided(old(Snapshot()), now)
    {
      if now > requestCountResetTime {
        requestCount := 0;
        requestCountResetTime := now + WindowSeconds;
      }
      if requestCount >= MaxRequestsPerHour {
        return RateLimited;
      }
      if accessToken != "" && now < expiryTime - SafetyMarginSeconds {
        return Cached(accessToken);
      }
      requestCount := requestCount + 1;
      d := MustIssue;
    }

    /** Rollback of the reservation on failure, or the replacement of the credential on success. */
    method Commit(now: int, outcome: IssueOutcome) returns (r: Result<string>)
      modifies this
      ensures (r, Snapshot()) == Committed(old(Snapshot()), now, outcome)
    {
      match outcome {
        case IssueFailed =>
          requestCount := requestCount - 1;
          r := Err(IssuanceFailed);
        case Issued(resp) =>
          tokenType := resp.tokenType;
          accessToken := resp.accessToken;
          expiryTime := now + resp.expiresIn as int;
          r := Ok(accessToken);
      }
    }

    method GetToken(now: int, outcome: IssueOutcome) returns (r: Result<string>)
      requires Valid()
      modifies this
      ensures Valid()
      ensures (r, Snapshot()) == Next(old(Snapshot()), now, outcome)
    {
      var d := Decide(now);
      match d {
        case RateLimited =>
          r := Err(RateLimitExceeded);
        case Cached(t) =>
          r := Ok(t);
        case MustIssue =>
          r := Commit(now, outcome);
      }
      NextKeepsInv(old(Snapshot()), now, outcome);
    }

    method GetAuthorizationHeader(now: int, outcome: IssueOutcome) returns (r: Result<string>)
      requires Valid()
      modifies this
      ensures Valid()
      ensures (r, Snapshot()) == HeaderNext(old(Snapshot()), now, outcome)
    {
      var t := GetToken(now, outcome);
      match t {
        case Ok(token) =>
          r := Ok(Header(tokenType, token));
        case Err(e) =>
          r := Err(e);
      }
    }
  }
}
