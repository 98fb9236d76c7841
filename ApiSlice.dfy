/**
 * The API layer: the headers every request carries, the base query that
 * refreshes an expired session once and retries, and the alerts the three
 * mutations dispatch when they finish.
 */
module ApiSlice {
  import opened Js
  import opened Records
  import opened AlertSlice
  import opened TokenSlice

  // ---------------------------------------------------------------- prepareHeaders

  /** The `Headers` of one request, an ordered list of name/value pairs. */
  class Headers {
    var entries: Record

    constructor (entries: Record)
      ensures this.entries == entries
    {
      this.entries := entries;
    }

    /** `headers.set(name, value)`. */
    method Set(name: string, value: string)
      modifies this
      ensures entries == Records.Set(old(entries), name, value)
    {
      entries := Records.Set(entries, name, value);
    }
  }

  /** The headers after `prepareHeaders` ran with `token` as the bearer token. */
  function Prepared(headers: Record, token: Option<string>): Record
  {
    var withAuth := if Truthy(token) then Records.Set(headers, "Authorization", "Bearer " + token.value) else headers;
    Records.Set(withAuth, "Content-Type", "application/json")
  }

  /** The token `prepareHeaders` uses: the state's access token, else the stored one. */
  function BearerToken(s: Session): Option<string>
  {
    Or(s.accessToken, StoredItem(s.stored, AccessTokenKey))
  }

  /** `Content-Type` is always JSON; `Authorization` is set only when there is a token; no
      other header changes. */
  lemma PreparedGet(headers: Record, token: Option<string>, name: string)
    ensures Get(Prepared(headers, token), name) ==
      if name == "Content-Type" then Some("application/json")
      else if name == "Authorization" && Truthy(token) then Some("Bearer " + token.value)
      else Get(headers, name)
  {
    var withAuth := if Truthy(token) then Records.Set(headers, "Authorization", "Bearer " + token.value) else headers;
    GetSet(withAuth, "Content-Type", "application/json", name);
    if Truthy(token) {
      GetSet(headers, "Authorization", "Bearer " + token.value, name);
    }
  }

  /** The state's token wins over the stored one; the stored one is used when the state has none. */
  lemma BearerTokenPrefersState(s: Session)
    ensures Truthy(s.accessToken) ==> BearerToken(s) == s.accessToken
    ensures !Truthy(s.accessToken) ==> BearerToken(s) == StoredItem(s.stored, AccessTokenKey)
  {
  }

  /** `prepareHeaders(headers, { getState })`. */
  method PrepareHeaders(headers: Headers, tokens: TokenStore)
    modifies headers
    ensures headers.entries == Prepared(old(headers.entries), BearerToken(tokens.State()))
  {
    var token := Or(tokens.accessToken, tokens.storage.GetItem(AccessTokenKey));
    if Truthy(token) {
      headers.Set("Authorization", "Bearer " + token.value);
    }
    headers.Set("Content-Type", "application/json");
  }

  // ---------------------------------------------------------------- baseQueryWithReauth

  /** The arguments of a query: its URL, method and JSON body. */
  datatype Args = Args(url: string, httpMethod: string, body: Record)

  /** One call of the base query: its arguments and the headers it was sent with. */
  datatype Call = Call(args: Args, headers: Record)

  /** `error.status`: an HTTP status, or one of the library's own error kinds. */
  datatype ErrorStatus = HttpStatus(code: int) | OtherError(kind: string)

  /** What the base query resolves to: the response data and/or the error. */
  datatype QueryResult = QueryResult(data: Option<Record>, error: Option<ErrorStatus>)

  predicate Unauthorized(r: QueryResult)
  {
    r.error == Some(HttpStatus(401))
  }

  /** The headers a call made in session `s` carries. */
  function CallHeaders(s: Session): Record
  {
    Prepared([], BearerToken(s))
  }

  /** The refresh token the re-authentication uses: the state's, else the stored one. */
  function RefreshFor(s: Session): Option<string>
  {
    Or(s.refreshToken, StoredItem(s.stored, RefreshTokenKey))
  }

  function RefreshArgs(refreshToken: string): Args
  {
    Args("refresh-token", "POST", [Property("refreshToken", refreshToken)])
  }

  const SessionExpired: AlertProps :=
    AlertProps("Session expired. Please log in again.", "error", Some(Position("20px", "20px")), Some(5000))

  /** What one run of `baseQueryWithReauth` does: the result it returns, the base-query calls
      it makes in order, the session afterwards and the alert it dispatches, if any. */
  datatype Outcome = Outcome(result: QueryResult, calls: seq<Call>, session: Session, alert: Option<AlertProps>)

  /** The policy as a function of the server's answers: `server(n, call)` is what the `n`-th
      base-query call of this run resolves to. */
  function Reauth(args: Args, server: (nat, Call) -> QueryResult, s: Session): Outcome
  {
    var first := Call(args, CallHeaders(s));
    var result := server(0, first);
    if !Unauthorized(result) then Outcome(result, [first], s, None)
    else
      var refreshToken := RefreshFor(s);
      if !Truthy(refreshToken) then Outcome(result, [first], Cleared(s), None)
      else
        var refresh := Call(RefreshArgs(refreshToken.value), CallHeaders(s));
        var refreshResult := server(1, refresh);
        if refreshResult.data.Some? then
          var data := refreshResult.data.value;
          var renewed := WithTokens(s, Get(data, "accessToken"), Get(data, "refreshToken"));
          var retry := Call(args, CallHeaders(renewed));
          Outcome(server(2, retry), [first, refresh, retry], renewed, None)
        else
          Outcome(result, [first, refresh], Cleared(s), Some(SessionExpired))
  }

  /** At most three calls: the request, at most one refresh, and at most one retry of the same
      request. */
  lemma ReauthCallBound(args: Args, server: (nat, Call) -> QueryResult, s: Session)
    ensures 1 <= |Reauth(args, server, s).calls| <= 3
    ensures Reauth(args, server, s).calls[0] == Call(args, CallHeaders(s))
    ensures |Reauth(args, server, s).calls| >= 2 ==> Reauth(args, server, s).calls[1].args == RefreshArgs(RefreshFor(s).value)
    ensures |Reauth(args, server, s).calls| == 3 ==> Reauth(args, server, s).calls[2].args == args
  {
  }

  /** A first answer other than 401 is returned as it is, after one call, with nothing else done. */
  lemma PassThrough(args: Args, server: (nat, Call) -> QueryResult, s: Session)
    requires !Unauthorized(server(0, Call(args, CallHeaders(s))))
    ensures Reauth(args, server, s) == Outcome(server(0, Call(args, CallHeaders(s))), [Call(args, CallHeaders(s))], s, None)
  {
  }

  /** A 401 without a refresh token signs out after one call and returns the 401. */
  lemma NoRefreshTokenSignsOut(args: Args, server: (nat, Call) -> QueryResult, s: Session)
    requires Unauthorized(server(0, Call(args, CallHeaders(s)))) && !Truthy(RefreshFor(s))
    ensures |Reauth(args, server, s).calls| == 1
    ensures SignedOut(Reauth(args, server, s).session) && Reauth(args, server, s).alert.None?
    ensures Reauth(args, server, s).result == server(0, Call(args, CallHeaders(s)))
  {
    ClearedFacts(s, "");
  }

  /** A refresh that returns no data signs out, alerts once and returns the original 401. */
  lemma FailedRefreshSignsOut(args: Args, server: (nat, Call) -> QueryResult, s: Session)
    requires Unauthorized(server(0, Call(args, CallHeaders(s)))) && Truthy(RefreshFor(s))
    requires server(1, Call(RefreshArgs(RefreshFor(s).value), CallHeaders(s))).data.None?
    ensures |Reauth(args, server, s).calls| == 2
    ensures SignedOut(Reauth(args, server, s).session) && Reauth(args, server, s).alert == Some(SessionExpired)
    ensures Reauth(args, server, s).result == server(0, Call(args, CallHeaders(s)))
    ensures Unauthorized(Reauth(args, server, s).result)
  {
    ClearedFacts(s, "");
  }

  /** A refresh that returns a truthy access token stores it and retries the request once with
      that token as its bearer; the retry's answer is what the caller gets. */
  lemma RetryCarriesNewToken(args: Args, server: (nat, Call) -> QueryResult, s: Session)
    requires Unauthorized(server(0, Call(args, CallHeaders(s)))) && Truthy(RefreshFor(s))
    requires server(1, Call(RefreshArgs(RefreshFor(s).value), CallHeaders(s))).data.Some?
    requires Truthy(Get(server(1, Call(RefreshArgs(RefreshFor(s).value), CallHeaders(s))).data.value, "accessToken"))
    ensures |Reauth(args, server, s).calls| == 3
    ensures var o := Reauth(args, server, s);
      var token := Get(server(1, o.calls[1]).data.value, "accessToken");
      o.session.accessToken == token && o.session.isAuthenticated
      && StoredItem(o.session.stored, AccessTokenKey) == token
      && Get(o.calls[2].headers, "Authorization") == Some("Bearer " + token.value)
      && o.result == server(2, o.calls[2]) && o.alert.None?
  {
    var o := Reauth(args, server, s);
    var data := server(1, o.calls[1]).data.value;
    var token := Get(data, "accessToken");
    WithTokensFacts(s, token, Get(data, "refreshToken"), "");
    assert BearerToken(o.session) == token;
    PreparedGet([], token, "Authorization");
  }

  /** `baseQueryWithReauth(args, api, extraOptions)`. `server` stands for the network behind
      `fetchBaseQuery`; `calls` records each base-query call in order. */
  method BaseQueryWithReauth(args: Args, server: (nat, Call) -> QueryResult, tokens: TokenStore, alerts: Alerts)
    returns (result: QueryResult, calls: seq<Call>)
    modifies tokens, tokens.storage, alerts
    ensures var o := Reauth(args, server, old(tokens.State()));
      result == o.result && calls == o.calls && tokens.State() == o.session
      && alerts.alertProps == (if o.alert.Some? then o.alert else old(alerts.alertProps))
  {
    var first := Call(args, CallHeaders(tokens.State()));
    result := server(0, first);
    calls := [first];
    if result.error == Some(HttpStatus(401)) {
      var refreshToken := Or(tokens.refreshToken, tokens.storage.GetItem(RefreshTokenKey));
      if Truthy(refreshToken) {
        var refresh := Call(RefreshArgs(refreshToken.value), CallHeaders(tokens.State()));
        var refreshResult := server(1, refresh);
        calls := calls + [refresh];
        if refreshResult.data.Some? {
          var data := refreshResult.data.value;
          tokens.SetTokens(Get(data, "accessToken"), Get(data, "refreshToken"));
          var retry := Call(args, CallHeaders(tokens.State()));
          result := server(2, retry);
          calls := calls + [retry];
        } else {
          tokens.ClearTokens();
          alerts.ShowAlert(SessionExpired);
        }
      } else {
        tokens.ClearTokens();
      }
    }
  }

  // ---------------------------------------------------------------- onQueryStarted alerts

  /** The three mutations; they differ only in the verb of their messages. */
  datatype Mutation = AddData | EditData | DeleteData

  function Verb(m: Mutation): string
  {
    match m
    case AddData => "add"
    case EditData => "update"
    case DeleteData => "delete"
  }

  function PastTense(m: Mutation): string
  {
    match m
    case AddData => "added"
    case EditData => "updated"
    case DeleteData => "deleted"
  }

  /** The request of a mutation: `{ url: data.url, method: ..., body: data.body }`. */
  function MutationQuery(m: Mutation, url: string, body: Record): Args
  {
    Args(url, match m case AddData => "POST" case EditData => "PUT" case DeleteData => "DELETE", body)
  }

  /** `getData(url)`: a plain URL, which the base query sends as a GET without a body. */
  function GetDataQuery(url: string): Args
  {
    Args(url, "GET", [])
  }

  /** Each mutation sends the caller's URL and body with a method of its own, and none of them
      is the GET of `getData`. */
  lemma MutationMethodsDistinct(m: Mutation, n: Mutation, url: string, body: Record)
    ensures MutationQuery(m, url, body).url == url && MutationQuery(m, url, body).body == body
    ensures m != n ==> MutationQuery(m, url, body).httpMethod != MutationQuery(n, url, body).httpMethod
    ensures MutationQuery(m, url, body).httpMethod != GetDataQuery(url).httpMethod
  {
  }

  /** `customMessages?.success || `${reqName || data.reqName || "Item"} <verb>ed successfully!``. */
  function SuccessMessage(m: Mutation, custom: Option<string>, reqName: Option<string>, dataReqName: Option<string>): (r: string)
    ensures Truthy(custom) ==> r == custom.value
    ensures !Truthy(custom) && Truthy(reqName) ==> r == reqName.value + " " + PastTense(m) + " successfully!"
    ensures !Truthy(custom) && !Truthy(reqName) && Truthy(dataReqName) ==> r == dataReqName.value + " " + PastTense(m) + " successfully!"
    ensures !Truthy(custom) && !Truthy(reqName) && !Truthy(dataReqName) ==> r == "Item " + PastTense(m) + " successfully!"
    ensures r != ""
  {
    OrElse(custom, OrElse(Or(reqName, dataReqName), "Item") + " " + PastTense(m) + " successfully!")
  }

  /** `customMessages?.error || error.message || `Failed to <verb> ${reqName || "item"}.``. */
  function ErrorMessage(m: Mutation, custom: Option<string>, errorMessage: Option<string>, reqName: Option<string>): (r: string)
    ensures Truthy(custom) ==> r == custom.value
    ensures !Truthy(custom) && Truthy(errorMessage) ==> r == errorMessage.value
    ensures !Truthy(custom) && !Truthy(errorMessage) ==> r == "Failed to " + Verb(m) + " " + OrElse(reqName, "item") + "."
    ensures r != ""
  {
    OrElse(Or(custom, errorMessage), "Failed to " + Verb(m) + " " + OrElse(reqName, "item") + ".")
  }

  /** How a mutation's request settles: with the response data's `reqName`, or with an error. */
  datatype Settled = Succeeded(dataReqName: Option<string>) | Failed(errorMessage: Option<string>)

  /** The alert `onQueryStarted` dispatches, with no position or duration of its own. */
  function QueryAlert(m: Mutation, customSuccess: Option<string>, customError: Option<string>, reqName: Option<string>, settled: Settled): (a: AlertProps)
    ensures a.position.None? && a.autoHideDuration.None? && a.message != ""
    ensures a.status == if settled.Succeeded? then "success" else "error"
  {
    match settled
    case Succeeded(dataReqName) => AlertProps(SuccessMessage(m, customSuccess, reqName, dataReqName), "success", None, None)
    case Failed(errorMessage) => AlertProps(ErrorMessage(m, customError, errorMessage, reqName), "error", None, None)
  }
}
