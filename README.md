# TokenManager: token cache and hourly rate limit

A Dafny model of `TokenManager` in `token-manager.cs`. The class caches one OAuth2
client-credentials bearer token and caps successful issuances at five per window; a
window lasts one hour, from construction or from the first request after the previous
window ended. With the locks and `await`s removed, a token request is a
sequential state machine over five fields:
- the credential: `_accessToken`, `_tokenType` and `_expiryTime`;
- the window: `_requestCount` and `_requestCountResetTime`.

A request runs in this order:
1. It rolls the window over once the clock is strictly past the reset time.
2. It refuses the request when the count is at the cap.
3. It returns the cached token when that token is non-empty and more than five minutes from expiry.
4. Otherwise it reserves a slot by incrementing the count and asks the token endpoint.
5. On failure it gives the slot back. On success it replaces token, type and expiry together.

Files:
- `token_manager.dfy` (module `TokenManagement`) holds the types and the pure step functions.
  - `Decided` is the locked checks and the reservation.
  - `Committed` is the rollback or the credential replacement.
  - `Next` is a whole token request.
  - `HeaderNext` is a header request.
  - The class `TokenManager` keeps the five fields. Its methods `Decide`, `Commit`,
    `GetToken` and `GetAuthorizationHeader` update them in place and are proved equal to those functions.
- `token_manager_properties.dfy` (module `TokenManagementProperties`) states what the
  manager promises:
  - per request: window rollover, cap, fast path, reservation, rollback, commit and header;
  - over a run of sequential requests within one window: at most five tokens are obtained,
    and after that every request is refused;
  - for the header: it can be split back into its type and token.

Modelling choices:
- Time is an integer number of seconds since `DateTime.MinValue`, passed in where the source
  reads `DateTime.UtcNow`. `AddHours(1)` is +3600, `AddMinutes(-5)` is −300 and
  `AddSeconds(expires_in)` is +`expires_in`. The initial `_expiryTime` is `default(DateTime)`, that is 0.
- The HTTP exchange and JSON deserialization are one abstract `IssueOutcome`:
  `Issued(TokenResponse)` or `IssueFailed`.
- `expires_in` is a C# `int`, so it has the type `int32`.
- A `null` string that the deserializer produces is written `""`. `string.IsNullOrEmpty`
  and string interpolation treat the two alike.

Consequences of the code that a caller might not expect:
- Only successful issuances are capped. A failed attempt gives its slot back
  (token-manager.cs:88), so one window allows any number of failed issuance requests
  (`IssueFailureRollsBack`, `RunWithinWindow`).
- The window is not rolling. It is a fixed hour that restarts at the first request after
  its reset time (token-manager.cs:57-61). A manager at the cap just before the reset time
  can obtain a token again a second after it (`WindowAfterRequest`, `DeniedThenAdmittedAfterReset`).
- The cap is checked before the cache (token-manager.cs:63-71). A still-usable cached token
  is refused once five tokens were obtained in the current window (`RateLimitedAtCap`,
  `CapBlocksRestOfWindow`).
- The rollback decrement has no floor at zero (token-manager.cs:88). In sequential use the
  count never goes below zero anyway (`NextKeepsInv`).
- A token whose `expires_in` is at most 300 seconds is never served from the cache, because
  of the five-minute margin (token-manager.cs:68). Every later request attempts a new issuance
  or is refused (`ShortLivedTokenNeverCached`).

## Model

| member | source | states |
|---|---|---|
| `TokenManagement.TokenManager.constructor` | token-manager.cs:27-35 | A new manager has count 0, a reset time one hour after construction, and no token. |
| `TokenManagement.TokenManager.Decide` | token-manager.cs:54-78 | The locked phase updates only the window and count. It returns RateLimited, the cached token, or MustIssue after reserving one slot, exactly as `Decided` says. |
| `TokenManagement.TokenManager.Commit` | token-manager.cs:84-122 | On failure the count drops by one and the credential is untouched. On success token, type and expiry (now + expires_in) are replaced together and the new token is returned. |
| `TokenManagement.TokenManager.GetToken` | token-manager.cs:52-92 | A token request is the decide phase followed, only when it says MustIssue, by the commit phase. It keeps the count within 0..5. |
| `TokenManagement.TokenManager.GetAuthorizationHeader` | token-manager.cs:125-129 | A header request returns the token type in the new state, one space, then the token just returned. Errors pass through unchanged. |
| `TokenManagement.Header` | token-manager.cs:128 | The header is the token type, followed by one space, followed by the token. |
| `TokenManagement.NextKeepsInv` | token-manager.cs:63-91 | A request from a state with 0 <= count <= 5 leaves a state with 0 <= count <= 5. The increment happens only below the cap, and a decrement only follows an increment. |
| `TokenManagementProperties.WindowAfterRequest` | token-manager.cs:57-61 | Strictly past the reset time, the window restarts at count 0 with a reset time of now + 3600. At or before it, the window is kept. Afterwards the count has grown by one exactly when a token was obtained. |
| `TokenManagementProperties.RateLimitedAtCap` | token-manager.cs:63-71 | A request fails with RateLimitExceeded if and only if the rolled count is at the cap. Then only the window check has changed state, even when the cached token is usable. |
| `TokenManagementProperties.FastPath` | token-manager.cs:68-71 | Below the cap, a non-empty token more than 300 s from expiry is returned. The credential is unchanged; only the window check changes the window, and no slot is reserved. |
| `TokenManagementProperties.ReservationBeforeIssue` | token-manager.cs:63-78 | An issuance attempt is made if and only if the count is below the cap and the cached token is not usable. The count is raised by exactly one, to at most 5, before the attempt. |
| `TokenManagementProperties.IssueFailureRollsBack` | token-manager.cs:84-91 | A failed attempt ends in IssuanceFailed. The count is back at its pre-attempt value and the credential is unchanged. |
| `TokenManagementProperties.IssueSuccessCommits` | token-manager.cs:113-122 | A successful attempt returns the new access token and replaces token, type and expiry = now + expires_in together. The count keeps its increment. |
| `TokenManagementProperties.ReturnedTokenIsStored` | token-manager.cs:68-122 | Any token a request returns is the access token stored in the state it leaves. |
| `TokenManagementProperties.HeaderFromOneCredential` | token-manager.cs:125-129 | The header pairs type and token of one credential: the cached one on the fast path, the issued response's after an issuance. |
| `TokenManagementProperties.ShortLivedTokenNeverCached` | token-manager.cs:68-117 | A token issued with expires_in <= 300 s is never returned from the cache by a later request while it is stored, whatever the window has become; such a request attempts a new issuance or is refused. |
| `TokenManagementProperties.DeniedThenAdmittedAfterReset` | token-manager.cs:57-66 | At the cap, a request 1 s before the reset time is refused and changes nothing. When the cached token is no longer usable, a request 1 s after it obtains a token, and the count restarts at 1. |
| `TokenManagementProperties.RunWithinWindow` | token-manager.cs:57-91 | Over any sequence of requests within one window, the reset time stays put and the count stays in 0..5. The count grows by exactly the number of tokens obtained, since failed attempts give their slot back. |
| `TokenManagementProperties.AtMostFivePerWindow` | token-manager.cs:25-78 | From construction, requests within the first hour obtain at most five tokens. |
| `TokenManagementProperties.CapBlocksRestOfWindow` | token-manager.cs:57-71 | Once the window's remaining slots are used by successful issuances, every further request in that window is refused and changes nothing. |
| `TokenManagementProperties.SplitHeader` | token-manager.cs:128 | The inverse of the header format: splitting at the first space gives a space-free prefix and the rest, which joined by one space give back the header. It gives nothing exactly when there is no space. |
| `TokenManagementProperties.HeaderRoundTrip` | token-manager.cs:128 | For a token type without spaces, splitting the header gives back exactly that type and that token. |

## Left out

- Locks, `async`/`await` and concurrency are not modelled; the model is sequential. This covers the race between the cap check and the increment in two separate lock sections (lines 54-78) and the unlocked read of `_tokenType` at line 128. Under concurrency the count can exceed the cap or go negative; sequentially it cannot.
- The process-wide singleton `Instance` with double-checked locking (lines 13-14, 37-50) is global state plus concurrency. The model constructs one manager explicitly.
- The HTTP request (`FormUrlEncodedContent`, `PostAsync`, the status check at lines 96-108) and `JsonSerializer.Deserialize` (lines 110-111) are network I/O and a foreign library. They are one abstract outcome, and an unreadable or `null` body is `IssueFailed`.
- `TokenManagement.TokenManager.GetToken`: the clock is read once per request. The source reads `DateTime.UtcNow` separately at lines 57, 60, 68 and 117; the model uses one `now` for all four. The read at line 117 comes after the network round trip, so the source's expiry is measured from slightly later than the model's. The constructor's read at line 34 is its own `now` parameter.
- `DateTime` range limits are not modelled, because no realistic clock reading reaches them. `AddSeconds` or `AddMinutes` throw when the result would leave year 1 to 9999. Such a throw at line 117 would leave the new token and type written with the old expiry.
- `SiparisService` (timer polling, the order-list request, logging; lines 139-189) and `Program.Main` with all console output are I/O and scheduling. This includes the header parsing at line 163.
