/**
 * `authInterceptor`: attaches the stored token as a Bearer credential
 * (section 2.1 of RFC 6750) to every request except the login and register
 * endpoints, and on a 401 response clears the token, navigates to `/` and
 * still hands the error to the caller. The rxjs pipeline is collapsed to the
 * values a response stream carries and how it ends.
 */
module Interceptor {
  import opened Wrappers
  import Text
  import Tokens

  datatype Request = Request(url: string, headers: map<string, string>)

  /** How a response stream ends: it completes, or it fails with an HTTP status. */
  datatype End = Completes | Fails(status: int)

  /** A response stream: the values it emits, then its end. */
  datatype Stream<T> = Stream(values: seq<T>, end: End)

  /** One pass through the interceptor. */
  datatype Exchange<T> = Exchange(sent: Request, tokens: Tokens.TokenStore, navigation: Option<string>, delivered: Stream<T>)

  /** The login and register endpoints, which must not carry a token. */
  predicate IsAuthRoute(url: string) {
    Text.Includes(url, "/api/auth/login") || Text.Includes(url, "/api/auth/register")
  }

  /** The request handed on: with a truthy token and outside the auth routes it gains an Authorization header. */
  function Outgoing(st: Tokens.TokenStore, req: Request): (r: Request)
    ensures r.url == req.url
    ensures forall k :: k != "Authorization" ==> (k in r.headers <==> k in req.headers)
    ensures forall k :: k != "Authorization" && k in req.headers ==> r.headers[k] == req.headers[k]
    ensures "Authorization" in r.headers && r.headers != req.headers ==>
      Tokens.Truthy(Tokens.Get(st)) && !IsAuthRoute(req.url) && r.headers["Authorization"] == "Bearer " + Tokens.Get(st).value
  {
    var token := Tokens.Get(st);
    if Tokens.Truthy(token) && !IsAuthRoute(req.url) then
      req.(headers := req.headers["Authorization" := "Bearer " + token.value])
    else req
  }

  /**
   * What the caller sees of a response: values and completion pass through,
   * an error passes through after a 401 has cleared the token and navigated to `/`.
   */
  function Relay<T>(st: Tokens.TokenStore, response: Stream<T>): (r: (Tokens.TokenStore, Option<string>, Stream<T>))
    ensures r.2 == response
    ensures response.end == Fails(401) ==> r.0 == Tokens.Clear(st) && r.1 == Some("/")
    ensures response.end != Fails(401) ==> r.0 == st && r.1.None?
  {
    match response.end
    case Fails(status) =>
      if status == 401 then (Tokens.Clear(st), Some("/"), response) else (st, None, response)
    case Completes => (st, None, response)
  }

  /** The whole interceptor, given the backend's answer to the request it sends. */
  function Intercept<T>(st: Tokens.TokenStore, req: Request, backend: Request -> Stream<T>): (r: Exchange<T>)
    ensures r.sent == Outgoing(st, req)
    ensures r.delivered == backend(r.sent)
  {
    var sent := Outgoing(st, req);
    var (after, nav, delivered) := Relay(st, backend(sent));
    Exchange(sent, after, nav, delivered)
  }

  /** The login and register endpoints are forwarded as they are, even with a token stored. */
  lemma AuthRoutesCarryNoToken<T>(st: Tokens.TokenStore, req: Request)
    requires IsAuthRoute(req.url)
    ensures Outgoing(st, req) == req
  {
  }

  /** Without a truthy token the request is forwarded unchanged. */
  lemma NoTokenNoHeader(st: Tokens.TokenStore, req: Request)
    requires !Tokens.Truthy(Tokens.Get(st))
    ensures Outgoing(st, req) == req
  {
  }

  /** Any other request with a stored token carries exactly `Bearer <token>`. */
  lemma OtherRoutesCarryBearer(st: Tokens.TokenStore, req: Request)
    requires Tokens.Truthy(Tokens.Get(st)) && !IsAuthRoute(req.url)
    ensures Outgoing(st, req).headers == req.headers["Authorization" := "Bearer " + Tokens.Get(st).value]
  {
  }

  /**
   * After a 401 the token is gone (with storage available), so the next
   * request goes out without a credential, whatever its URL.
   */
  lemma UnauthorizedDropsCredential<T>(st: Tokens.TokenStore, req: Request, backend: Request -> Stream<T>, next: Request)
    requires st.available
    requires backend(Outgoing(st, req)).end == Fails(401)
    ensures Tokens.Get(Intercept(st, req, backend).tokens) == None
    ensures Intercept(st, req, backend).navigation == Some("/")
    ensures Outgoing(Intercept(st, req, backend).tokens, next) == next
  {
  }

  /** Any other outcome leaves the token alone and navigates nowhere. */
  lemma OtherOutcomesKeepToken<T>(st: Tokens.TokenStore, req: Request, backend: Request -> Stream<T>)
    requires backend(Outgoing(st, req)).end != Fails(401)
    ensures Intercept(st, req, backend).tokens == st
    ensures Intercept(st, req, backend).navigation.None?
  {
  }
}
