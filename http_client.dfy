/**
 * The shared HTTP client: the request side attaches the stored token, the
 * response side refreshes an expired token once and repeats the request.
 */
module HttpClient {
  import opened Wrappers
  import opened Json
  import opened Http
  import opened Text
  import opened Storage
  import AuthService

  const AuthorizationHeader := "Authorization"
  const RedirectTarget := "/"

  /** The request interceptor: a non-empty stored token becomes a bearer header. */
  function AttachBearer(items: map<string, string>, req: Request): (r: Request)
    ensures r.path == req.path && r.retry == req.retry
    ensures HasText(items, TokenKey) ==> r.headers == req.headers[AuthorizationHeader := "Bearer " + items[TokenKey]]
    ensures !HasText(items, TokenKey) ==> r == req
  {
    if HasText(items, TokenKey) then req.(headers := req.headers[AuthorizationHeader := "Bearer " + items[TokenKey]])
    else req
  }

  /** Passing a request through the interceptor twice changes nothing more. */
  lemma AttachBearerIdempotent(items: map<string, string>, req: Request)
    ensures AttachBearer(items, AttachBearer(items, req)) == AttachBearer(items, req)
  {
  }

  /**
   * The token a refresh answer carries, as it ends up in storage; reading
   * a field of a `null` body throws.
   */
  function RefreshedToken(body: Json): (r: Result<string, RequestError>)
    ensures r.Failure? <==> body.JNull?
    ensures Get(body, "accessToken").Some? && Get(body, "accessToken").value.JStr? ==> r == Success(Get(body, "accessToken").value.s)
    ensures !body.JNull? && Get(body, "accessToken").None? ==> r == Success("undefined")
  {
    if body.JNull? then Failure(PlainError) else Success(JsString(Get(body, "accessToken")))
  }

  /** The outcome of the refresh call as the interceptor sees it. */
  function RefreshOutcome(refresh: Result<Json, RequestError>): Result<string, RequestError> {
    match refresh
    case Success(body) => RefreshedToken(body)
    case Failure(e) => Failure(e)
  }

  /**
   * One request through the client. `first` is the server's answer to the
   * request, `refresh` the answer to `POST /refresh`, `retried` the answer
   * to the repeated request. Returns the settled result, the requests that
   * went out, whether a refresh was attempted and whether the page is sent
   * to the root.
   */
  method Send(store: Store, req: Request, first: Result<Json, RequestError>,
              refresh: Result<Json, RequestError>, retried: Result<Json, RequestError>)
    returns (r: Result<Json, RequestError>, sent: seq<Request>, refreshed: bool, redirect: bool)
    modifies store
    ensures 1 <= |sent| <= 2 && sent[0] == AttachBearer(old(store.items), req)
    ensures refreshed <==> first.Failure? && HasStatus(first.error, 401) && !req.retry
    ensures !refreshed ==> r == first && |sent| == 1 && !redirect && store.items == old(store.items)
    ensures refreshed && RefreshOutcome(refresh).Success? ==>
      var token := RefreshOutcome(refresh).value;
      && store.items == old(store.items)[TokenKey := token]
      && |sent| == 2 && sent[1].path == req.path && sent[1].retry
      && sent[1].headers == sent[0].headers[AuthorizationHeader := "Bearer " + token]
      && r == retried && !redirect
    ensures refreshed && RefreshOutcome(refresh).Failure? ==>
      var e := RefreshOutcome(refresh).error;
      && r == Failure(e) && |sent| == 1
      && (redirect <==> e.isAxios && HasStatus(e, 403))
      && (redirect ==> store.items == old(store.items) - {TokenKey, UserKey})
      && (!redirect ==> store.items == old(store.items))
  {
    var out := AttachBearer(store.items, req);
    sent, refreshed, redirect := [out], false, false;
    if first.Failure? && HasStatus(first.error, 401) && !req.retry {
      refreshed := true;
      match RefreshOutcome(refresh) {
        case Success(token) =>
          store.SetItem(TokenKey, token);
          var again := out.(retry := true, headers := out.headers[AuthorizationHeader := "Bearer " + token]);
          sent := sent + [AttachBearer(store.items, again)];
          r := retried;
        case Failure(e) =>
          if e.isAxios && HasStatus(e, 403) {
            AuthService.ClearAuth(store);
            redirect := true;
          }
          r := Failure(e);
      }
    } else {
      r := first;
    }
  }
}
