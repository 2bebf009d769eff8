/** The HTTP client's request interceptor: before every request it re-reads
    the stored token and, when there is one, attaches a bearer header. */
module Api {
  import opened Common
  import opened Auth

  const AuthorizationHeader: string := "Authorization"

  /** The request config the interceptor receives; only its headers are read or written. */
  class RequestConfig {
    var headers: map<string, string>

    constructor (headers: map<string, string>)
      ensures this.headers == headers
    {
      this.headers := headers;
    }
  }

  /** The headers after interception, given the token read from storage. */
  function WithBearer(headers: map<string, string>, token: Option<string>): (r: map<string, string>)
    ensures r.Keys == headers.Keys + (if Truthy(token) then {AuthorizationHeader} else {})
    ensures Truthy(token) ==> r[AuthorizationHeader] == "Bearer " + token.value
  {
    if Truthy(token) then headers[AuthorizationHeader := "Bearer " + token.value] else headers
  }

  /** A truthy token yields exactly `Bearer <token>`; an absent or empty token
      adds nothing; no other header is touched. */
  lemma BearerHeader(headers: map<string, string>, token: Option<string>)
    ensures Truthy(token) ==> AuthorizationHeader in WithBearer(headers, token)
                              && WithBearer(headers, token)[AuthorizationHeader] == "Bearer " + token.value
    ensures !Truthy(token) ==> WithBearer(headers, token) == headers
    ensures forall k :: k != AuthorizationHeader ==>
              (k in WithBearer(headers, token) <==> k in headers)
    ensures forall k :: k != AuthorizationHeader && k in headers ==> WithBearer(headers, token)[k] == headers[k]
  {
  }

  /** The fulfilment handler: the same config object comes back, with the
      header set from the token stored at the time of the request. */
  method OnRequest(config: RequestConfig, storage: Storage) returns (r: RequestConfig)
    modifies config
    ensures r == config
    ensures config.headers == WithBearer(old(config.headers), StoredToken(storage.items))
  {
    var token := StoredToken(storage.items);
    if Truthy(token) {
      config.headers := config.headers[AuthorizationHeader := "Bearer " + token.value];
    }
    r := config;
  }

  /** The rejection handler: a request-setup error is passed on unchanged. */
  function OnRequestError(e: Error): (r: Outcome<RequestConfig>)
    ensures r.Rejected? && r.error == e
  {
    Rejected(e)
  }

  /** Because the token is re-read on every request, a logout takes effect on
      the very next request: it carries no bearer header of its own. */
  lemma NextRequestAfterLogout(s: Session, headers: map<string, string>)
    ensures WithBearer(headers, StoredToken(LoggedOut(s).items)) == headers
  {
  }

  /** After the token request succeeds, the next request carries the new
      token, even when decoding it failed and no user was set. */
  lemma NextRequestAfterLogin(s: Session, token: string, decode: Decoder, headers: map<string, string>)
    requires token != ""
    ensures var after := WithBearer(headers, StoredToken(LoginStep(s, Resolved(token), decode).0.items));
      AuthorizationHeader in after && after[AuthorizationHeader] == "Bearer " + token
  {
  }

  /** A provider and an interceptor sharing one storage: once the provider
      logs out, the next intercepted request goes out without a bearer header
      beyond the ones it already had. */
  method LogoutThenRequest(auth: AuthProvider, config: RequestConfig) returns (r: RequestConfig)
    modifies auth, auth.storage, config
    ensures r == config && config.headers == old(config.headers)
  {
    auth.Logout();
    r := OnRequest(config, auth.storage);
  }
}
