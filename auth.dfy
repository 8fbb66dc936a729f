/**
  `TokenAuth`: an authentication hook that attaches `Authorization:
  <scheme> <token>` (or the bare token when there is no scheme) to every
  outgoing request.
 */
module Auth {
  import opened Wrappers

  const AuthorizationHeader: string := "Authorization"
  const DefaultScheme: string := "Bearer"

  /** Python truthiness of the optional scheme: `None` and `""` are false. */
  predicate IsFalsy(scheme: Option<string>) {
    scheme.None? || scheme.value == ""
  }

  /**
    The header value `TokenAuth.__init__` stores: the token always ends it,
    and a truthy scheme and one space come before it.
   */
  function HeaderValue(token: string, scheme: Option<string>): (v: string)
    ensures |token| <= |v| && v[|v| - |token|..] == token
    ensures IsFalsy(scheme) ==> v == token
    ensures !IsFalsy(scheme) ==>
              && |v| == |scheme.value| + 1 + |token|
              && v[..|scheme.value|] == scheme.value
              && v[|scheme.value|] == ' '
  {
    if IsFalsy(scheme) then token else scheme.value + " " + token
  }

  /** Under one scheme, different tokens give different header values. */
  lemma HeaderValueInjective(token1: string, token2: string, scheme: Option<string>)
    requires HeaderValue(token1, scheme) == HeaderValue(token2, scheme)
    ensures token1 == token2
  {
    var v := HeaderValue(token1, scheme);
    assert |token1| == |token2|;
    assert token1 == v[|v| - |token1|..] == token2;
  }

  /** Header values for the token `abc123` under the default, an absent, an empty and a custom scheme. */
  lemma HeaderValueExamples()
    ensures HeaderValue("abc123", Some(DefaultScheme)) == "Bearer abc123"
    ensures HeaderValue("abc123", None) == "abc123"
    ensures HeaderValue("abc123", Some("")) == "abc123"
    ensures HeaderValue("abc123", Some("OAuth")) == "OAuth abc123"
  {
  }

  /**
    `req.headers['Authorization'] = value`: the header is set to the value
    and every other header is kept as it was.
   */
  function WithAuthorization(headers: map<string, string>, value: string): (h: map<string, string>)
    ensures h.Keys == headers.Keys + {AuthorizationHeader}
    ensures h[AuthorizationHeader] == value
    ensures forall k :: k in headers && k != AuthorizationHeader ==> h[k] == headers[k]
  {
    headers[AuthorizationHeader := value]
  }

  /** Setting the header twice gives the same headers as setting it once. */
  lemma WithAuthorizationIdempotent(headers: map<string, string>, value: string)
    ensures WithAuthorization(WithAuthorization(headers, value), value) == WithAuthorization(headers, value)
  {
    var once := WithAuthorization(headers, value);
    var twice := WithAuthorization(once, value);
    assert twice.Keys == once.Keys;
    forall k | k in once ensures twice[k] == once[k] {
    }
  }

  /** The outgoing request a hook is applied to, as far as a hook sees it. */
  class PreparedRequest {
    var verb: string
    var url: string
    var headers: map<string, string>
    var body: Option<string>

    constructor(verb: string, url: string, headers: map<string, string>, body: Option<string>)
      ensures this.verb == verb && this.url == url
      ensures this.headers == headers && this.body == body
    {
      this.verb := verb;
      this.url := url;
      this.headers := headers;
      this.body := body;
    }
  }

  class TokenAuth {
    /** The complete header value (the source keeps it under the name `token`). */
    const token: string

    constructor(token: string, scheme: Option<string> := Some(DefaultScheme))
      ensures this.token == HeaderValue(token, scheme)
    {
      this.token := HeaderValue(token, scheme);
    }

    /** `__call__`: set the Authorization header in place and return the same request. */
    method Apply(req: PreparedRequest) returns (r: PreparedRequest)
      modifies req
      ensures r == req
      ensures req.headers == WithAuthorization(old(req.headers), token)
      ensures req.verb == old(req.verb) && req.url == old(req.url) && req.body == old(req.body)
    {
      req.headers := req.headers[AuthorizationHeader := token];
      r := req;
    }
  }

  /** Applying the hook a second time leaves the request's headers as they were after the first. */
  method ApplyTwice(auth: TokenAuth, req: PreparedRequest)
    modifies req
    ensures req.headers == WithAuthorization(old(req.headers), auth.token)
    ensures req.verb == old(req.verb) && req.url == old(req.url) && req.body == old(req.body)
  {
    var once := auth.Apply(req);
    var twice := auth.Apply(once);
    WithAuthorizationIdempotent(old(req.headers), auth.token);
  }

  /** `TokenAuth(token)` with the default scheme sends `Bearer <token>`. */
  method DefaultSchemeExample(token: string) returns (value: string)
    ensures value == "Bearer " + token
  {
    var auth := new TokenAuth(token);
    value := auth.token;
  }
}
