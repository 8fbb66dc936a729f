# api-client, modelled in Dafny

`api_client` is a thin wrapper around an HTTP session library. An
`APIClient` holds a base URL and a set of optional session settings. It
opens a transport session at construction and copies onto it every setting
that is given (most only when truthy; `verify` and `stream` whenever they
are not `None`). It registers its own request logger as the first response
hook. Every request goes to `BASE_URL + '/' + path.lstrip('/')` through
that session. The reply is wrapped in an `APIResponse`: a mapping whose
contents are the decoded JSON body when the response's content-type starts
with `application/json` and decoding succeeds, and that is empty otherwise.
Once the session is closed, by `close_session` or by leaving a `with`
block, every request raises `Request session closed.` without sending
anything. `TokenAuth` is an authentication hook that sets the
`Authorization` header to `<scheme> <token>`, or to the bare token when the
scheme is falsy.

The project has six modules:

- `Wrappers` (wrappers.dfy): `Option` and `Result`.
- `Url` (url.dfy): `rstrip('/')` and `lstrip('/')`, the normalised base URL and the URL join.
- `Response` (response.dfy): the raw response, the JSON values and `APIResponse` as `Wrap`.
- `Auth` (auth.dfy): `TokenAuth` as a class with an in-place `Apply` on a prepared request.
- `Transport` (transport.dfy): the transport session's settings, as a class whose fields the client writes one by one, and a ghost trace of what the client did with its sessions (opened, closed, sent a request). The trace comes with the rules a legal trace obeys.
- `Client` (client.dfy): `APIClient` as a class whose `reqSession` field is either an open session or `None`. `Configured(config)` is the specification of the settings `init_session` produces.

The transport's reply to a request is a parameter of `Request`: a raw
response, or the error the transport raises. The JSON decoder of the
response body is also a parameter, a function from text to an optional
JSON object.

## Model

| member | source | states |
|---|---|---|
| Url.RStripSlashes | api_client/base.py:39 | `rstrip('/')`: the input is the result followed by slashes only, and the result does not end in a slash |
| Url.RStripUnique | api_client/base.py:39 | that characterisation is unique: any split of the input into a prefix not ending in a slash plus slashes is the one `rstrip` returns |
| Url.NormalizeBase | api_client/base.py:39 | `BASE_URL` has no trailing slash, and the given `base_url` is `BASE_URL` followed by slashes |
| Url.NormalizeIdempotent | api_client/base.py:39 | normalising a normalised base URL changes nothing |
| Url.TrailingSlashesIgnored | api_client/base.py:39 | adding any number of trailing slashes to `base_url` gives the same `BASE_URL` |
| Url.LStripSlashes | api_client/base.py:115 | `lstrip('/')`: the input is slashes followed by the result, and the result does not start with a slash |
| Url.LStripUnique | api_client/base.py:115 | that characterisation is unique, as for `rstrip` |
| Url.LeadingSlashesIgnored | api_client/base.py:115 | adding any number of leading slashes to `path` does not change what is appended |
| Url.JoinUrl | api_client/base.py:115 | the request URL starts with the base, then one slash, then a tail that does not start with a slash and is `path` less its leading slashes |
| Url.JoinJunction | api_client/base.py:115 | for a normalised base, the characters on both sides of the joining slash are not slashes: exactly one slash joins base and path |
| Url.CallerSlashesIgnored | api_client/base.py:115 | the request URL does not depend on how many slashes the caller puts at the end of `base_url` or at the start of `path` |
| Url.JoinExamples | api_client/base.py:115 | `http://x/` with `/y` and `http://x` with `y` both give `http://x/y` |
| Response.ContentType | api_client/base.py:14 | the content-type is present exactly when the response has that header, and it is the header's value |
| Response.Wrap | api_client/base.py:12-21 | the wrapper keeps the raw response and its content-type; its contents are the decoded body when the content-type starts with `application/json` and decoding succeeds, and empty otherwise (no `JSONDecodeError` or `TypeError` from decoding escapes) |
| Response.NonEmptyContentsAreDecoded | api_client/base.py:15-18 | non-empty contents imply a JSON content-type and a body that decoded to exactly those contents |
| Response.NonJsonIgnoresDecoder | api_client/base.py:16 | for a non-JSON content-type the result does not depend on the decoder at all |
| Response.JsonBodyExample | api_client/base.py:16-18 | an `application/json` body `{"a":1}` gives the contents `{"a": 1}` |
| Response.PlainTextExample | api_client/base.py:15-16 | a `text/plain` response has empty contents and keeps its text |
| Auth.HeaderValue | api_client/auth.py:13 | the stored value ends with the token; with a falsy scheme it is the token, otherwise it is the scheme, one space and the token |
| Auth.HeaderValueInjective | api_client/auth.py:13 | under one scheme, different tokens give different header values |
| Auth.HeaderValueExamples | api_client/auth.py:12-13 | `Bearer abc123` by default, `abc123` for `None` and `""`, `OAuth abc123` for `OAuth` |
| Auth.TokenAuth.constructor | api_client/auth.py:12-13 | the stored value is the header value of the token under the scheme, with `Bearer` as the default scheme |
| Auth.DefaultSchemeExample | api_client/auth.py:12-13 | `TokenAuth(token)` sends `Bearer <token>` |
| Auth.WithAuthorization | api_client/auth.py:16 | the header set is the old one plus `Authorization`, which holds the value; every other header keeps its value |
| Auth.WithAuthorizationIdempotent | api_client/auth.py:16 | setting the header twice gives the same headers as setting it once |
| Auth.TokenAuth.Apply | api_client/auth.py:15-17 | the request's headers become `WithAuthorization` of the old ones, its other fields are unchanged, and the same request object is returned |
| Auth.ApplyTwice | api_client/auth.py:15-17 | applying the hook twice to a request leaves the same headers as applying it once |
| Transport.Session.constructor | api_client/base.py:54 | a new session has the transport's default settings and no response hooks |
| Transport.LegalAppend | api_client/base.py:52-54 | an allowed event keeps the trace legal; opening makes that session the open one, closing leaves none open, and sending leaves the open session as it was |
| Transport.StaysClosed | api_client/base.py:77-80 | after a session is closed it is never the open session again |
| Transport.NothingAfterClose | api_client/base.py:77-80 | after a session is closed, no later event uses it: no request, no second close, no reopening |
| Transport.OpenedOnce | api_client/base.py:53-54 | no session is opened twice; each `init_session` opens a new one |
| Transport.UsedOnlyWhileOpen | api_client/base.py:111-113 | every request and every close goes to the session open at that moment |
| Client.LoggerFirst | api_client/base.py:55-75 | the logger is the first response hook, and the caller's hooks follow it in their order |
| Client.NotNoneSettingsApplied | api_client/base.py:66-73 | `verify` and `stream` are applied whenever they are not `None`, `False` included; when `None` the defaults (verify on, no streaming) stay |
| Client.FalsySettingsKeepDefaults | api_client/base.py:56-71 | a falsy `params`, `cookies`, `proxies`, `cert` or `max_redirects` keeps the default (so `max_redirects=0` keeps 30), and a truthy one replaces it |
| Client.HeadersMerged | api_client/base.py:58-59 | the given headers override the defaults with the same name, the other defaults are kept, and no other header appears |
| Client.NoConfigIsDefault | api_client/base.py:37-75 | a client given only a base URL gets the default settings plus the logger hook |
| Client.APIClient.constructor | api_client/base.py:37-50 | `BASE_URL` is the normalised base URL, and one new session is opened and configured |
| Client.APIClient.InitSession | api_client/base.py:52-75 | any open session is closed first, exactly once; then a new session is opened, becomes the client's session and holds `Configured(config)` |
| Client.APIClient.Configure | api_client/base.py:55-75 | a session with the default settings ends up with `Configured(config)` |
| Client.APIClient.ApplyRequestDefaults | api_client/base.py:56-59 | params are replaced and headers merged exactly when they are truthy |
| Client.APIClient.ApplyCredentials | api_client/base.py:60-63 | auth and cookies are replaced exactly when they are truthy |
| Client.APIClient.ApplyConnectionSettings | api_client/base.py:64-73 | proxies, cert and max_redirects are replaced when truthy; verify and stream are replaced when not `None` |
| Client.APIClient.CloseSession | api_client/base.py:77-80 | afterwards there is no session; an open one is closed, with exactly one close recorded, and nothing happens when none was open |
| Client.APIClient.Enter | api_client/base.py:82-85 | returns the client itself with an open session: an open session is kept untouched, otherwise a new configured one is opened |
| Client.APIClient.Exit | api_client/base.py:87-88 | closes the session whatever ended the block |
| Client.APIClient.Request | api_client/base.py:102-122 | with no session it fails with `Request session closed.` and nothing is sent; otherwise exactly one request goes through the open session to `JoinUrl(BASE_URL, path)`, and the result is the wrapped reply or the transport's error |
| Client.APIClient.Get | api_client/base.py:124-125 | `request` with the verb `GET` |
| Client.APIClient.Post | api_client/base.py:127-128 | `request` with the verb `POST` |
| Client.APIClient.Put | api_client/base.py:130-131 | `request` with the verb `PUT` |
| Client.APIClient.Patch | api_client/base.py:133-134 | `request` with the verb `PATCH` |
| Client.APIClient.Delete | api_client/base.py:136-137 | `request` with the verb `DELETE` |
| Client.APIClient.Head | api_client/base.py:139-140 | `request` with the verb `HEAD` |
| Client.APIClient.Options | api_client/base.py:142-143 | `request` with the verb `OPTIONS` |
| Client.RequestAfterClose | api_client/base.py:111-112 | after `close_session`, a request fails with the closed-session error and records nothing but the close |

## Left out

- The transport library itself (connection pooling, redirects, cookie handling on responses, the actual send) is outside the model. A request is recorded as a trace event, and the transport's answer is a parameter of `Request`.
- `_log_request` and the library's logger produce only log output. The logger appears only as the `LogRequest` hook, and the warning on invalid JSON is not modelled.
- Header names are exact strings. The transport's case-insensitive header dictionary is not modelled: raw response headers are keyed by their lower-case names, and session and request headers are plain maps.
- `cookiejar_from_dict` is modelled as storing the cookie mapping as given. The cookie jar's structure is not modelled.
- The transport's default headers are fixed constants. The `User-Agent` omits the library's version number, and `Accept-Encoding` is `gzip, deflate` without the `br` or `zstd` that some installations add.
- Response.Wrap: only JSON objects are modelled as decoded bodies. A body that decodes to a non-object (a list, a number) and then makes `dict(...)` raise or produce other contents is not modelled. Decoding is a parameter that either gives an object or fails.
- Response.Wrap: only `JSONDecodeError` and `TypeError` are caught. Any other exception `response.json()` raises propagates out of `APIResponse(...)`; the model does not represent it, because the decoder either returns an object or fails in a caught way.
- JSON numbers are integers; floating point is not modelled.
- `str(path)` coercion is not modelled: `path` is a string.
- `**kwargs` options forwarded by `request` and the verb helpers (timeouts, files, per-call `auth`, and so on) are not modelled. The per-call `params`, `data`, `json` and `headers` are recorded in the request event as given, with `None` kept as `None`.
- The class attribute `BASE_URL = 'http://localhost:5000'` is always overwritten by the constructor, so it plays no part.
- `errors.py` (`APIClientException`) is not part of this model. The exception is the error value `SessionClosed("Request session closed.")`.
- Client.APIClient.Exit: the exception arguments of `__exit__` are not modelled, and neither is the exception propagation they imply. The session is always closed.
- Thread safety and concurrent use of one client are not modelled.
