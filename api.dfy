/**
 * The HTTP client's two interceptors (services/api.ts): the request side
 * attaches the stored bearer token, the response side forgets the token on
 * a 401 and hands every outcome back to the caller unchanged.
 */
module Api {
  import opened Wrappers
  import opened Types
  import opened Strings
  import opened Storage

  const AuthorizationHeader := "Authorization"

  /** The headers every request starts with. */
  const DefaultHeaders: map<string, string> :=
    map["Content-Type" := "application/json", "Accept" := "application/json"]

  /** A request about to be sent; the request interceptor edits its headers in place. */
  class RequestConfig {
    var httpMethod: string
    var url: string
    var headers: map<string, string>

    constructor (httpMethod: string, url: string)
      ensures this.httpMethod == httpMethod && this.url == url && headers == DefaultHeaders
    {
      this.httpMethod := httpMethod;
      this.url := url;
      headers := DefaultHeaders;
    }
  }

  /** The server answered with status 401. */
  predicate Unauthorized(e: ApiError) {
    e.response.Some? && e.response.value.status == 401
  }

  /**
   * The headers after the request interceptor has seen the stored token:
   * a non-empty token is sent as `Bearer <token>`, an absent or empty one
   * adds nothing, and every other header is kept.
   */
  function WithBearer(headers: map<string, string>, token: Option<string>): (r: map<string, string>)
    ensures Truthy(token) ==> AuthorizationHeader in r && r[AuthorizationHeader] == "Bearer " + token.value
    ensures !Truthy(token) ==> r == headers
    ensures forall h :: h != AuthorizationHeader ==> (h in r <==> h in headers)
    ensures forall h :: h != AuthorizationHeader && h in headers ==> r[h] == headers[h]
  {
    if Truthy(token) then headers[AuthorizationHeader := "Bearer " + token.value] else headers
  }

  /**
   * The storage after the response interceptor has seen a failed request:
   * a 401 deletes `token` and keeps every other key and its value; any other
   * failure, including one with no response, leaves storage alone.
   */
  function AfterFailure(items: map<string, StoredValue>, e: ApiError): (r: map<string, StoredValue>)
    ensures Unauthorized(e) ==> TokenKey !in r
    ensures !Unauthorized(e) ==> r == items
    ensures forall k :: k != TokenKey ==> (k in r <==> k in items)
    ensures forall k :: k != TokenKey && k in items ==> r[k] == items[k]
  {
    if Unauthorized(e) then items - {TokenKey} else items
  }

  /** The request interceptor: reads `token` and, when it is non-empty, sets the bearer header. */
  method AttachBearer(config: RequestConfig, store: SecureStore) returns (sent: RequestConfig)
    modifies config
    ensures sent == config
    ensures config.headers == WithBearer(old(config.headers), StoredToken(store.items))
    ensures config.httpMethod == old(config.httpMethod) && config.url == old(config.url)
  {
    var stored := store.GetItem(TokenKey);
    if stored.Some? && stored.value.Text? && stored.value.text != "" {
      config.headers := config.headers[AuthorizationHeader := "Bearer " + stored.value.text];
    }
    sent := config;
  }

  /**
   * The response interceptor: a success passes through; a failure deletes
   * `token` when the server answered 401 and is rejected back to the caller
   * as it was, with no retry.
   */
  method InterceptResponse(store: SecureStore, outcome: Result<HttpResponse, ApiError>)
    returns (delivered: Result<HttpResponse, ApiError>)
    modifies store
    ensures delivered == outcome
    ensures outcome.Success? ==> store.items == old(store.items)
    ensures outcome.Failure? ==> store.items == AfterFailure(old(store.items), outcome.error)
  {
    if outcome.Failure? && Unauthorized(outcome.error) {
      store.DeleteItem(TokenKey);
    }
    delivered := outcome;
  }

  /**
   * After a 401, the next request goes out without an Authorization header
   * added: the two interceptors together log the client out of its token.
   */
  lemma NextRequestAfterUnauthorizedIsAnonymous(items: map<string, StoredValue>, e: ApiError,
                                                headers: map<string, string>)
    requires Unauthorized(e)
    ensures StoredToken(AfterFailure(items, e)) == None
    ensures WithBearer(headers, StoredToken(AfterFailure(items, e))) == headers
  {
  }
}
