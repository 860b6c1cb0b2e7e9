/**
 * `fetchAPI`, the authenticated request function every resource wrapper goes
 * through: it picks the bearer token, refuses to send a request without one,
 * turns a non-OK answer into an error message, clears the stored token on 401
 * and rewrites transport failures as a fixed network message.
 *
 * The session lookup and the HTTP exchange are inputs (`SessionLookup`,
 * `Transport`); the stored token is the `TokenStore` object.
 */
module Api {
  import opened Wrappers
  import opened Types
  import opened Strings
  import opened Storage

  const NoSessionMessage := "No active session. Please login again."
  const AuthRequiredMessage := "Authentication required. Please login."
  const NetworkErrorMessage :=
    "Network error: Unable to connect to server. Please check your connection and try again."
  const TransportErrorMessage :=
    "Network error: Unable to connect to server. Please check your connection and CORS settings."

  /** What `supabase.auth.getSession()` did: answered (with or without a token), or threw. */
  datatype SessionLookup = SessionReturned(accessToken: Option<string>) | LookupThrew(thrown: Thrown)

  /** The body of an HTTP answer: a JSON envelope, or something `response.json()` rejects. */
  datatype Body<T> = Json(envelope: ApiResponse<T>) | NotJson(parseError: Thrown)

  /** What `fetch` did: answered with a status line and a body, or threw. */
  datatype Transport<T> = Answered(status: int, statusText: string, body: Body<T>) | FetchThrew(thrown: Thrown)

  /** JavaScript truthiness of an optional string. */
  predicate Truthy(s: Option<string>) {
    s.Some? && s.value != ""
  }

  /** The error the `catch` around the session lookup treats as "no session": no fallback. */
  predicate IsNoSessionError(e: Thrown) {
    e.IsError() && Contains(e.message, "No active session")
  }

  /** The token chosen for the request and the stored token once the choice is made. */
  datatype TokenChoice = TokenChoice(token: Option<string>, stored: Option<string>)

  /**
   * The token selection of `fetchAPI`: no window gives no token; a session with
   * a token gives that token and stores it; a session without one removes the
   * stored token and throws the "no session" error, which is caught without a
   * fallback; any other failure falls back to the stored token.
   */
  function ChooseToken(hasWindow: bool, lookup: SessionLookup, stored: Option<string>): TokenChoice {
    if !hasWindow then TokenChoice(None, stored)
    else match lookup
      case SessionReturned(access) =>
        if Truthy(access) then TokenChoice(access, access)
        else
          // the token is removed first, then the thrown error reaches the catch
          var removed: Option<string> := None;
          if IsNoSessionError(ErrorObject(NoSessionMessage)) then TokenChoice(None, removed)
          else TokenChoice(removed, removed)
      case LookupThrew(e) =>
        if IsNoSessionError(e) then TokenChoice(None, stored) else TokenChoice(stored, stored)
  }

  predicate IsOk(status: int) {
    200 <= status <= 299
  }

  /**
   * The message of a non-OK answer: the body's `error`, else its `message`,
   * else the status text when the body is not JSON, else the status default.
   */
  function FailureMessage<T>(status: int, statusText: string, body: Body<T>): (m: string)
    ensures body.Json? && Truthy(body.envelope.error) ==> m == body.envelope.error.value
    ensures body.Json? && !Truthy(body.envelope.error) && Truthy(body.envelope.message)
      ==> m == body.envelope.message.value
    ensures body.NotJson? && statusText != "" ==> m == statusText
    ensures (body.Json? && !Truthy(body.envelope.error) && !Truthy(body.envelope.message))
      || (body.NotJson? && statusText == "")
      ==> m == "API request failed with status " + IntToString(status)
    ensures m != ""
  {
    var fallback := "API request failed with status " + IntToString(status);
    match body
    case Json(env) =>
      if Truthy(env.error) then env.error.value
      else if Truthy(env.message) then env.message.value
      else fallback
    case NotJson(_) =>
      if statusText != "" then statusText else fallback
  }

  /** The test that turns a non-OK answer into the fixed network message. */
  predicate IsNetworkFailure(status: int, message: string) {
    status == 0 || Contains(message, "CORS") || Contains(message, "Failed to fetch")
  }

  /** The outer `catch`: a `TypeError` mentioning `fetch` becomes the network message. */
  function Rewrite(e: Thrown): (r: Thrown)
    ensures e.TypeErrorObject? && Contains(e.message, "fetch") ==> r == ErrorObject(TransportErrorMessage)
    ensures !(e.TypeErrorObject? && Contains(e.message, "fetch")) ==> r == e
  {
    if e.TypeErrorObject? && Contains(e.message, "fetch") then ErrorObject(TransportErrorMessage) else e
  }

  /** What the call returns or throws once a request has been sent. */
  function ResponseOutcome<T>(transport: Transport<T>): Result<ApiResponse<T>, Thrown> {
    match transport
    case FetchThrew(e) => Err(Rewrite(e))
    case Answered(status, text, body) =>
      if IsOk(status) then
        match body
        case Json(env) => Ok(env)
        case NotJson(e) => Err(Rewrite(e))
      else
        var m := FailureMessage(status, text, body);
        if IsNetworkFailure(status, m) then Err(Rewrite(ErrorObject(NetworkErrorMessage)))
        else Err(Rewrite(ErrorObject(m)))
  }

  /** The answer was a 401: the stored token is removed. */
  predicate ClearsToken<T>(transport: Transport<T>) {
    transport.Answered? && !IsOk(transport.status) && transport.status == 401
  }

  /** A 401 schedules the move to `/login` unless the current path already contains it. */
  predicate SchedulesLogin<T>(transport: Transport<T>, path: string) {
    ClearsToken(transport) && !Contains(path, "/login")
  }

  /** Everything one call of `fetchAPI` does, as seen from outside. */
  datatype FetchEffect<T> = FetchEffect(
    result: Result<ApiResponse<T>, Thrown>,
    authorization: Option<string>,   // the Authorization header sent; None when nothing was sent
    stored: Option<string>,          // the stored token afterwards
    redirect: bool)                  // whether the move to /login was scheduled

  function Fetch<T>(hasWindow: bool, lookup: SessionLookup, transport: Transport<T>, path: string,
                    stored: Option<string>): FetchEffect<T>
  {
    var c := ChooseToken(hasWindow, lookup, stored);
    if !Truthy(c.token) then FetchEffect(Err(ErrorObject(AuthRequiredMessage)), None, c.stored, false)
    else FetchEffect(
      ResponseOutcome(transport),
      Some("Bearer " + c.token.value),
      if ClearsToken(transport) then None else c.stored,
      SchedulesLogin(transport, path))
  }

  /** `fetchAPI(endpoint, options)`, step by step as the client runs it. */
  method FetchApi<T>(store: TokenStore, hasWindow: bool, lookup: SessionLookup,
                     transport: Transport<T>, path: string)
    returns (result: Result<ApiResponse<T>, Thrown>, authorization: Option<string>, redirect: bool)
    modifies store
    ensures FetchEffect(result, authorization, store.token, redirect)
      == Fetch(hasWindow, lookup, transport, path, old(store.token))
  {
    var token: Option<string> := None;
    if hasWindow {
      var caught: Option<Thrown> := None;
      match lookup {
        case SessionReturned(access) =>
          if Truthy(access) {
            token := access;
            store.Set(access.value);
          } else {
            store.Remove();
            caught := Some(ErrorObject(NoSessionMessage));
          }
        case LookupThrew(e) =>
          caught := Some(e);
      }
      if caught.Some? && !IsNoSessionError(caught.value) {
        token := store.Get();
      }
    }
    redirect := false;
    if !Truthy(token) {
      result, authorization := Err(ErrorObject(AuthRequiredMessage)), None;
      return;
    }
    authorization := Some("Bearer " + token.value);
    match transport {
      case FetchThrew(e) =>
        result := Err(Rewrite(e));
      case Answered(status, text, body) =>
        if !IsOk(status) {
          var message := FailureMessage(status, text, body);
          if status == 401 {
            store.Remove();
            redirect := !Contains(path, "/login");
          }
          if IsNetworkFailure(status, message) {
            result := Err(Rewrite(ErrorObject(NetworkErrorMessage)));
          } else {
            result := Err(Rewrite(ErrorObject(message)));
          }
        } else {
          match body {
            case Json(env) => result := Ok(env);
            case NotJson(e) => result := Err(Rewrite(e));
          }
        }
    }
  }

  // ---------------------------------------------------------------------------
  // Properties of one call

  /** The "no session" error `fetchAPI` throws itself is the one excluded from the fallback. */
  lemma OwnNoSessionErrorIsExcluded()
    ensures IsNoSessionError(ErrorObject(NoSessionMessage))
  {
    assert StartsWith(NoSessionMessage, "No active session");
  }

  /** Without a browser window nothing is sent and the call fails with the login message. */
  lemma NoWindowNoRequest<T>(lookup: SessionLookup, transport: Transport<T>, path: string, stored: Option<string>)
    ensures var f := Fetch(false, lookup, transport, path, stored);
      f.result == Err(ErrorObject(AuthRequiredMessage)) && f.authorization.None?
      && f.stored == stored && !f.redirect
  {
  }

  /** A request is sent exactly when a non-empty token was chosen, and it carries that token. */
  lemma RequestIffToken<T>(hasWindow: bool, lookup: SessionLookup, transport: Transport<T>, path: string,
                           stored: Option<string>)
    ensures var c := ChooseToken(hasWindow, lookup, stored);
      var f := Fetch(hasWindow, lookup, transport, path, stored);
      (f.authorization.Some? <==> Truthy(c.token))
      && (f.authorization.Some? ==> f.authorization.value == "Bearer " + c.token.value)
      && (f.authorization.None? ==> f.result == Err(ErrorObject(AuthRequiredMessage)) && !f.redirect)
  {
  }

  /** A session with a token is used, and its token overwrites the stored one. */
  lemma SessionTokenUsedAndStored<T>(t: string, transport: Transport<T>, path: string, stored: Option<string>)
    requires t != ""
    ensures var f := Fetch(true, SessionReturned(Some(t)), transport, path, stored);
      f.authorization == Some("Bearer " + t)
      && f.stored == (if ClearsToken(transport) then None else Some(t))
  {
  }

  /** A session without a token removes the stored token and never falls back to it. */
  lemma NoSessionNoFallback<T>(access: Option<string>, transport: Transport<T>, path: string,
                               stored: Option<string>)
    requires !Truthy(access)
    ensures var f := Fetch(true, SessionReturned(access), transport, path, stored);
      f.authorization.None? && f.stored.None? && f.result == Err(ErrorObject(AuthRequiredMessage))
  {
    OwnNoSessionErrorIsExcluded();
  }

  /** Only a lookup that throws some other error makes the stored token the fallback. */
  lemma FallbackOnlyOnOtherError<T>(e: Thrown, transport: Transport<T>, path: string, stored: Option<string>)
    ensures var f := Fetch(true, LookupThrew(e), transport, path, stored);
      (f.authorization.Some? <==> !IsNoSessionError(e) && Truthy(stored))
      && (f.authorization.Some? ==> f.authorization == Some("Bearer " + stored.value))
  {
  }

  /** A 401 always removes the stored token; the redirect is scheduled only away from `/login`. */
  lemma UnauthorizedClearsToken<T>(hasWindow: bool, lookup: SessionLookup, text: string, body: Body<T>,
                                   path: string, stored: Option<string>)
    requires Truthy(ChooseToken(hasWindow, lookup, stored).token)
    ensures var f := Fetch(hasWindow, lookup, Answered(401, text, body), path, stored);
      f.stored.None? && (f.redirect <==> !Contains(path, "/login"))
      && f.result.Err?
  {
  }

  /** Status 0, or a message naming CORS or "Failed to fetch", gives the fixed network message. */
  lemma NetworkFailureRewritten<T>(status: int, text: string, body: Body<T>)
    requires !IsOk(status) && IsNetworkFailure(status, FailureMessage(status, text, body))
    ensures ResponseOutcome(Answered(status, text, body)) == Err(ErrorObject(NetworkErrorMessage))
  {
  }

  /** Any other non-OK answer throws its own message, unchanged. */
  lemma OtherFailurePropagated<T>(status: int, text: string, body: Body<T>)
    requires !IsOk(status) && !IsNetworkFailure(status, FailureMessage(status, text, body))
    ensures ResponseOutcome(Answered(status, text, body)) == Err(ErrorObject(FailureMessage(status, text, body)))
  {
  }

  /** A thrown `TypeError` mentioning `fetch` becomes the CORS network message; everything else propagates. */
  lemma TransportFailures<T>(e: Thrown)
    ensures ResponseOutcome<T>(FetchThrew(e))
      == if e.TypeErrorObject? && Contains(e.message, "fetch") then Err(ErrorObject(TransportErrorMessage))
         else Err(e)
  {
  }

  // ---------------------------------------------------------------------------
  // The stored token across a sequence of calls

  /** One call's inputs, for reasoning about several calls in a row. */
  datatype Call<T> = Call(hasWindow: bool, lookup: SessionLookup, transport: Transport<T>, path: string)

  /** The stored token after a sequence of calls, starting from `stored`. */
  function StoredAfter<T>(stored: Option<string>, calls: seq<Call<T>>): Option<string>
    decreases |calls|
  {
    if calls == [] then stored
    else
      var c := calls[0];
      StoredAfter(Fetch(c.hasWindow, c.lookup, c.transport, c.path, stored).stored, calls[1..])
  }

  /** The call retrieved a session token and its answer was not a 401. */
  predicate RetrievedToken<T>(c: Call<T>) {
    c.hasWindow && c.lookup.SessionReturned? && Truthy(c.lookup.accessToken) && !ClearsToken(c.transport)
  }

  /**
   * After a sequence of calls that each retrieved a session token, the store
   * holds the token of the most recent one.
   */
  lemma {:induction false} StoreHoldsLatestToken<T>(stored: Option<string>, calls: seq<Call<T>>)
    requires calls != []
    requires forall k :: 0 <= k < |calls| ==> RetrievedToken(calls[k])
    ensures calls[|calls| - 1].lookup.SessionReturned?
      && StoredAfter(stored, calls) == calls[|calls| - 1].lookup.accessToken
    decreases |calls|
  {
    var c := calls[0];
    var next := Fetch(c.hasWindow, c.lookup, c.transport, c.path, stored).stored;
    if |calls| > 1 {
      StoreHoldsLatestToken(next, calls[1..]);
    }
  }
}
