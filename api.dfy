/** The HTTP client of frontend/src/services/api.js: an axios instance whose
    request interceptor copies the stored bearer token into every request. */
module Api {
  import opened Common

  const AuthorizationHeader := "Authorization"
  const BearerPrefix := "Bearer "

  /** The browser state the client shares between views: the `token` entry
      of localStorage (`None` when nothing is stored) and the router's path. */
  class Browser {
    var token: Option<string>
    var location: string

    constructor (token: Option<string>, location: string)
      ensures this.token == token && this.location == location
    {
      this.token := token;
      this.location := location;
    }

    /** Nothing falsy (the empty string) sits in the token store. */
    predicate NoFalsyToken()
      reads this
    {
      token.None? || token.value != ""
    }
  }

  /** The interceptor's guard: a token is attached when it is truthy and is
      not one of the strings an earlier `setItem` of `undefined` or `null`
      would have left behind. */
  predicate Attachable(token: Option<string>) {
    Truthy(token) && token.value != "undefined" && token.value != "null"
  }

  /** The header value for a token. */
  function Bearer(token: string): (v: string)
    ensures |v| == |BearerPrefix| + |token|
    ensures v[..|BearerPrefix|] == BearerPrefix && v[|BearerPrefix|..] == token
  {
    BearerPrefix + token
  }

  /** The headers an otherwise header-less request leaves with. */
  function OutgoingHeaders(token: Option<string>): (h: map<string, string>)
    ensures AuthorizationHeader in h <==> Attachable(token)
    ensures AuthorizationHeader in h ==> h[AuthorizationHeader] == Bearer(token.value)
    ensures h.Keys <= {AuthorizationHeader}
  {
    if Attachable(token) then map[AuthorizationHeader := Bearer(token.value)] else map[]
  }

  datatype Verb = Get | Post

  /** A request as it leaves the browser. */
  datatype Request = Request(verb: Verb, path: string, headers: map<string, string>, body: Json)

  /** axios's mutable request config, handed to the interceptor. */
  class RequestConfig {
    var verb: Verb
    var path: string
    var headers: map<string, string>
    var body: Json

    constructor (verb: Verb, path: string, body: Json)
      ensures this.verb == verb && this.path == path && this.body == body
      ensures headers == map[]
    {
      this.verb := verb;
      this.path := path;
      this.body := body;
      headers := map[];
    }

    function Snapshot(): (r: Request)
      reads this
      ensures r.verb == verb && r.path == path && r.headers == headers && r.body == body
    {
      Request(verb, path, headers, body)
    }
  }

  /** The request interceptor: reads the token store and, when the guard
      holds, sets the Authorization header of the config it was given; the
      same config object comes back, and only its headers may change. */
  method Intercept(browser: Browser, config: RequestConfig) returns (r: RequestConfig)
    modifies config`headers
    ensures r == config
    ensures Attachable(browser.token) ==>
      config.headers == old(config.headers)[AuthorizationHeader := Bearer(browser.token.value)]
    ensures !Attachable(browser.token) ==> config.headers == old(config.headers)
    ensures unchanged(browser)
  {
    var token := browser.token;
    if Attachable(token) {
      config.headers := config.headers[AuthorizationHeader := Bearer(token.value)];
    }
    r := config;
  }

  /** `api.get(path)` / `api.post(path, body)` up to the point where the
      request leaves: a fresh config passed through the interceptor. */
  method Send(browser: Browser, verb: Verb, path: string, body: Json) returns (req: Request)
    ensures req == Request(verb, path, OutgoingHeaders(browser.token), body)
  {
    var config := new RequestConfig(verb, path, body);
    config := Intercept(browser, config);
    req := config.Snapshot();
  }

  /** Once the store holds no falsy value, a request carries the bearer
      header exactly when a token is stored and it is neither sentinel
      string. */
  lemma StoredTokenAttachable(b: Browser)
    requires b.NoFalsyToken()
    ensures AuthorizationHeader in OutgoingHeaders(b.token) <==>
      b.token.Some? && b.token.value != "undefined" && b.token.value != "null"
    ensures b.token.Some? && b.token.value != "undefined" && b.token.value != "null" ==>
      OutgoingHeaders(b.token) == map[AuthorizationHeader := BearerPrefix + b.token.value]
  {
  }
}
