/**
 * What a TokenManager promises its callers, stated over the step functions
 * that its methods are proved against: per request, over a run of sequential
 * requests within one window, and for the header it hands out.
 */
module TokenManagementProperties {
  import opened TokenManagement

  /** One request: the clock reading and what the network exchange would produce. */
  datatype Call = Call(now: int, outcome: IssueOutcome)

  /** A request that reaches the network and keeps its reserved slot. */
  predicate Issues(s: ManagerState, now: int, outcome: IssueOutcome)
  {
    Decided(s, now).0 == MustIssue && outcome.Issued?
  }

  /** The state after a run of sequential requests. */
  function Run(s: ManagerState, calls: seq<Call>): ManagerState
    decreases |calls|
  {
    if calls == [] then s
    else Run(Next(s, calls[0].now, calls[0].outcome).1, calls[1..])
  }

  /** How many requests of a run obtained a new token. */
  function Issuances(s: ManagerState, calls: seq<Call>): nat
    decreases |calls|
  {
    if calls == [] then 0
    else
      (if Issues(s, calls[0].now, calls[0].outcome) then 1 else 0)
      + Issuances(Next(s, calls[0].now, calls[0].outcome).1, calls[1..])
  }

  // ---------------------------------------------------------------------------
  // One request
  // ---------------------------------------------------------------------------

  /**
   * The window check runs first: past the reset time the count restarts from
   * zero with a reset time one hour ahead; at or before it (the comparison is
   * strict) the window is kept. Afterwards the count has grown by one exactly
   * when a new token was obtained.
   */
  lemma WindowAfterRequest(s: ManagerState, now: int, outcome: IssueOutcome)
    ensures now > s.window.resetAt ==>
      Next(s, now, outcome).1.window
        == Window(if Issues(s, now, outcome) then 1 else 0, now + WindowSeconds)
    ensures now <= s.window.resetAt ==>
      Next(s, now, outcome).1.window
        == Window(s.window.count + (if Issues(s, now, outcome) then 1 else 0), s.window.resetAt)
  {
  }

  /**
   * A request fails with RateLimitExceeded exactly when the count after the
   * window check is at the cap; then nothing but the window check has changed,
   * even if the cached token is still usable.
   */
  lemma RateLimitedAtCap(s: ManagerState, now: int, outcome: IssueOutcome)
    ensures Next(s, now, outcome).0 == Err(RateLimitExceeded)
        <==> Rolled(s.window, now).count >= MaxRequestsPerHour
    ensures Rolled(s.window, now).count >= MaxRequestsPerHour ==>
      Next(s, now, outcome).1 == ManagerState(s.cred, Rolled(s.window, now))
  {
  }

  /** Below the cap a usable cached token is returned, and only the window check changes state. */
  lemma FastPath(s: ManagerState, now: int, outcome: IssueOutcome)
    requires Rolled(s.window, now).count < MaxRequestsPerHour
    requires Usable(s.cred, now)
    ensures Next(s, now, outcome)
         == (Ok(s.cred.accessToken), ManagerState(s.cred, Rolled(s.window, now)))
  {
  }

  /**
   * An issuance attempt is made exactly when the cap is not reached and the
   * cached token is not usable; the count is then raised by one, to at most the
   * cap, before the network is asked.
   */
  lemma ReservationBeforeIssue(s: ManagerState, now: int)
    ensures Decided(s, now).0 == MustIssue
        <==> Rolled(s.window, now).count < MaxRequestsPerHour && !Usable(s.cred, now)
    ensures Decided(s, now).0 == MustIssue ==>
      Decided(s, now).1 == ManagerState(s.cred, Window(Rolled(s.window, now).count + 1,
                                                      Rolled(s.window, now).resetAt))
      && Decided(s, now).1.window.count <= MaxRequestsPerHour
  {
  }

  /**
   * A failed attempt ends in IssuanceFailed with the count back at its value
   * before the attempt and the credential untouched.
   */
  lemma IssueFailureRollsBack(s: ManagerState, now: int)
    requires Decided(s, now).0 == MustIssue
    ensures Next(s, now, IssueFailed)
         == (Err(IssuanceFailed), ManagerState(s.cred, Rolled(s.window, now)))
  {
  }

  /**
   * A successful attempt replaces token, type and expiry together, with the
   * expiry `expires_in` seconds from now, returns the new token and keeps the
   * reserved slot.
   */
  lemma IssueSuccessCommits(s: ManagerState, now: int, resp: TokenResponse)
    requires Decided(s, now).0 == MustIssue
    ensures Next(s, now, Issued(resp)).0 == Ok(resp.accessToken)
    ensures Next(s, now, Issued(resp)).1.cred
         == Credential(resp.accessToken, resp.tokenType, now + resp.expiresIn as int)
    ensures Next(s, now, Issued(resp)).1.window
         == Window(Rolled(s.window, now).count + 1, Rolled(s.window, now).resetAt)
  {
  }

  /** Whatever token a request returns is the access token stored in the state it leaves. */
  lemma ReturnedTokenIsStored(s: ManagerState, now: int, outcome: IssueOutcome)
    ensures Next(s, now, outcome).0.Ok? ==>
      Next(s, now, outcome).0.value == Next(s, now, outcome).1.cred.accessToken
  {
  }

  /**
   * The header pairs the token with the type of the same credential: the one
   * cached, or the one just issued.
   */
  lemma HeaderFromOneCredential(s: ManagerState, now: int, outcome: IssueOutcome)
    ensures HeaderNext(s, now, outcome).1 == Next(s, now, outcome).1
    ensures HeaderNext(s, now, outcome).0.Ok? <==> Next(s, now, outcome).0.Ok?
    ensures HeaderNext(s, now, outcome).0.Ok? ==>
      var c := Next(s, now, outcome).1.cred;
      HeaderNext(s, now, outcome).0.value == Header(c.tokenType, c.accessToken)
    ensures HeaderNext(s, now, outcome).0.Ok? && Decided(s, now).0.Cached? ==>
      HeaderNext(s, now, outcome).0.value == Header(s.cred.tokenType, s.cred.accessToken)
    ensures HeaderNext(s, now, outcome).0.Ok? && Decided(s, now).0 == MustIssue ==>
      HeaderNext(s, now, outcome).0.value
        == Header(outcome.response.tokenType, outcome.response.accessToken)
  {
  }

  /**
   * A token whose lifetime is at most the safety margin is never served from
   * the cache: a later request made while that credential is still stored,
   * whatever the window has become meanwhile, attempts a new issuance or is
   * refused. Requests that do not issue keep the credential (RateLimitedAtCap,
   * FastPath, IssueFailureRollsBack), so this covers every later request up to
   * the next successful issuance.
   */
  lemma ShortLivedTokenNeverCached(s: ManagerState, now: int, resp: TokenResponse,
                                   w: Window, later: int)
    requires Decided(s, now).0 == MustIssue
    requires resp.expiresIn as int <= SafetyMarginSeconds
    requires now <= later
    ensures !Decided(ManagerState(Next(s, now, Issued(resp)).1.cred, w), later).0.Cached?
  {
  }

  /**
   * A manager at the cap refuses a request one second before the reset time,
   * without changing state; one second after it, when the cached token is no
   * longer usable, it obtains a new token with the count restarted at one.
   */
  lemma DeniedThenAdmittedAfterReset(s: ManagerState, outcome: IssueOutcome, resp: TokenResponse)
    requires Inv(s) && s.window.count == MaxRequestsPerHour
    requires !Usable(s.cred, s.window.resetAt + 1)
    ensures Next(s, s.window.resetAt - 1, outcome) == (Err(RateLimitExceeded), s)
    ensures Next(s, s.window.resetAt + 1, Issued(resp)).0 == Ok(resp.accessToken)
    ensures Next(s, s.window.resetAt + 1, Issued(resp)).1.window
         == Window(1, s.window.resetAt + 1 + WindowSeconds)
  {
  }

  // ---------------------------------------------------------------------------
  // Runs of sequential requests
  // ---------------------------------------------------------------------------

  /**
   * Within one window (no request after its reset time) the reset time stays
   * put, the count stays within the cap, and only successful attempts keep
   * their slot: the count grows by the number of tokens obtained.
   */
  lemma {:induction false} RunWithinWindow(s: ManagerState, calls: seq<Call>)
    requires Inv(s)
    requires forall i :: 0 <= i < |calls| ==> calls[i].now <= s.window.resetAt
    ensures Inv(Run(s, calls))
    ensures Run(s, calls).window.resetAt == s.window.resetAt
    ensures Run(s, calls).window.count == s.window.count + Issuances(s, calls)
    decreases |calls|
  {
    if calls != [] {
      var c := calls[0];
      var s1 := Next(s, c.now, c.outcome).1;
      WindowAfterRequest(s, c.now, c.outcome);
      NextKeepsInv(s, c.now, c.outcome);
      assert forall i :: 0 <= i < |calls[1..]| ==> calls[1..][i].now <= s1.window.resetAt by {
        forall i | 0 <= i < |calls[1..]|
          ensures calls[1..][i].now <= s1.window.resetAt
        {
          assert calls[1..][i] == calls[i + 1];
        }
      }
      RunWithinWindow(s1, calls[1..]);
    }
  }

  /** In the first window of a new manager at most five tokens are obtained. */
  lemma AtMostFivePerWindow(created: int, calls: seq<Call>)
    requires forall i :: 0 <= i < |calls| ==> calls[i].now <= created + WindowSeconds
    ensures Issuances(InitialState(created), calls) <= MaxRequestsPerHour
  {
    RunWithinWindow(InitialState(created), calls);
  }

  /**
   * Once the slots left in a window are used up by successful issuances, every
   * further request in that window is refused and changes nothing, whether or
   * not the cached token is still usable.
   */
  lemma CapBlocksRestOfWindow(s: ManagerState, calls: seq<Call>, now: int, outcome: IssueOutcome)
    requires Inv(s)
    requires forall i :: 0 <= i < |calls| ==> calls[i].now <= s.window.resetAt
    requires Issuances(s, calls) == MaxRequestsPerHour - s.window.count
    requires now <= s.window.resetAt
    ensures Next(Run(s, calls), now, outcome) == (Err(RateLimitExceeded), Run(s, calls))
  {
    RunWithinWindow(s, calls);
  }

  // ---------------------------------------------------------------------------
  // The header and its inverse
  // ---------------------------------------------------------------------------

  datatype Option<T> = None | Some(value: T)

  /** A header split into the part before its first space and the part after it. */
  datatype HeaderParts = HeaderParts(tokenType: string, token: string)

  /** The inverse of Header: splits a header value at its first space. */
  function SplitHeader(h: string): (r: Option<HeaderParts>)
    ensures r.None? <==> ' ' !in h
    ensures r.Some? ==>
      ' ' !in r.value.tokenType && h == r.value.tokenType + " " + r.value.token
    decreases |h|
  {
    if h == [] then None
    else if h[0] == ' ' then Some(HeaderParts([], h[1..]))
    else
      match SplitHeader(h[1..])
      case None => None
      case Some(p) => Some(HeaderParts([h[0]] + p.tokenType, p.token))
  }

  /** When the token type has no space, the header gives back exactly its type and token. */
  lemma {:induction false} HeaderRoundTrip(tokenType: string, token: string)
    requires ' ' !in tokenType
    ensures SplitHeader(Header(tokenType, token)) == Some(HeaderParts(tokenType, token))
    decreases |tokenType|
  {
    var h := Header(tokenType, token);
    if tokenType == [] {
      assert h[0] == ' ' && h[1..] == token;
    } else {
      var rest := tokenType[1..];
      assert h[0] == tokenType[0] != ' ';
      assert h[1..] == Header(rest, token) by {
        assert h == [tokenType[0]] + (rest + " " + token);
      }
      HeaderRoundTrip(rest, token);
      assert [tokenType[0]] + rest == tokenType;
    }
  }
}
