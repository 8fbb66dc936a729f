/**
  `APIClient`: a base URL, the settings copied onto every new transport
  session, and the session itself, which is either open or absent.
 */
module Client {
  import opened Wrappers
  import opened Url
  import opened Response
  import opened Transport

  /** The constructor's optional settings; `None` is Python's `None`. */
  datatype Config = Config(
    params: Option<map<string, string>>,
    headers: Option<map<string, string>>,
    auth: Option<AuthSetting>,
    cookies: Option<map<string, string>>,
    proxies: Option<map<string, string>>,
    verify: Option<Verify>,
    cert: Option<Cert>,
    maxRedirects: Option<int>,
    stream: Option<bool>,
    responseHooks: Option<seq<Hook>>)

  /** A client constructed with nothing but a base URL. */
  const NoConfig: Config := Config(None, None, None, None, None, None, None, None, None, None)

  // Python truthiness of each optional setting: `None` is false, and so is
  // an empty mapping, an empty list, an empty path and the number zero.

  predicate MapTruthy(o: Option<map<string, string>>) {
    o.Some? && |o.value| > 0
  }

  predicate AuthTruthy(o: Option<AuthSetting>) {
    o.Some?
  }

  predicate CertTruthy(o: Option<Cert>) {
    o.Some? && (o.value.CertFile? ==> o.value.path != "")
  }

  predicate IntTruthy(o: Option<int>) {
    o.Some? && o.value != 0
  }

  predicate HooksTruthy(o: Option<seq<Hook>>) {
    o.Some? && |o.value| > 0
  }

  /** The response hooks a configuration adds after the logger. */
  function ExtraHooks(c: Config): seq<Hook> {
    if HooksTruthy(c.responseHooks) then c.responseHooks.value else []
  }

  /**
    The settings of a session after `init_session` has configured a new one:
    truthy settings replace the defaults (headers are merged into them),
    `verify` and `stream` replace them whenever they are not `None`, and the
    logger is registered before the caller's hooks.
   */
  function Configured(c: Config): (s: Settings)
  {
    Settings(
      params := ConfiguredParams(c),
      headers := ConfiguredHeaders(c),
      auth := ConfiguredAuth(c),
      cookies := ConfiguredCookies(c),
      proxies := ConfiguredProxies(c),
      verify := ConfiguredVerify(c),
      cert := ConfiguredCert(c),
      maxRedirects := ConfiguredMaxRedirects(c),
      stream := ConfiguredStream(c),
      hooks := DefaultSettings.hooks + [LogRequest] + ExtraHooks(c))
  }

  function ConfiguredParams(c: Config): map<string, string> {
    if MapTruthy(c.params) then c.params.value else DefaultSettings.params
  }

  function ConfiguredHeaders(c: Config): map<string, string> {
    if MapTruthy(c.headers) then DefaultSettings.headers + c.headers.value else DefaultSettings.headers
  }

  function ConfiguredAuth(c: Config): Option<AuthSetting> {
    if AuthTruthy(c.auth) then c.auth else DefaultSettings.auth
  }

  function ConfiguredCookies(c: Config): map<string, string> {
    if MapTruthy(c.cookies) then c.cookies.value else DefaultSettings.cookies
  }

  function ConfiguredProxies(c: Config): map<string, string> {
    if MapTruthy(c.proxies) then c.proxies.value else DefaultSettings.proxies
  }

  function ConfiguredVerify(c: Config): Verify {
    if c.verify.Some? then c.verify.value else DefaultSettings.verify
  }

  function ConfiguredCert(c: Config): Option<Cert> {
    if CertTruthy(c.cert) then c.cert else DefaultSettings.cert
  }

  function ConfiguredMaxRedirects(c: Config): int {
    if IntTruthy(c.maxRedirects) then c.maxRedirects.value else DefaultSettings.maxRedirects
  }

  function ConfiguredStream(c: Config): bool {
    if c.stream.Some? then c.stream.value else DefaultSettings.stream
  }

  /** The logger is always the first response hook, and the caller's hooks follow it in order. */
  lemma LoggerFirst(c: Config)
    ensures |Configured(c).hooks| == 1 + |ExtraHooks(c)|
    ensures Configured(c).hooks[0] == LogRequest
    ensures Configured(c).hooks[1..] == ExtraHooks(c)
    ensures c.responseHooks.Some? ==> Configured(c).hooks[1..] == c.responseHooks.value
  {
  }

  /** `verify` and `stream` are applied whenever they are given, `False` included. */
  lemma NotNoneSettingsApplied(c: Config)
    ensures c.verify.Some? ==> Configured(c).verify == c.verify.value
    ensures c.verify.None? ==> Configured(c).verify == VerifyFlag(true)
    ensures c.stream.Some? ==> Configured(c).stream == c.stream.value
    ensures c.stream.None? ==> !Configured(c).stream
  {
  }

  /**
    A falsy setting (absent, empty or zero) leaves the session default in
    place; a truthy one replaces it.
   */
  lemma FalsySettingsKeepDefaults(c: Config)
    ensures Configured(c).params == (if MapTruthy(c.params) then c.params.value else map[])
    ensures Configured(c).cookies == (if MapTruthy(c.cookies) then c.cookies.value else map[])
    ensures Configured(c).proxies == (if MapTruthy(c.proxies) then c.proxies.value else map[])
    ensures Configured(c).auth == (if c.auth.Some? then c.auth else None)
    ensures Configured(c).cert == (if CertTruthy(c.cert) then c.cert else None)
    ensures !IntTruthy(c.maxRedirects) ==> Configured(c).maxRedirects == DefaultMaxRedirects
    ensures c.maxRedirects == Some(0) ==> Configured(c).maxRedirects == 30
    ensures IntTruthy(c.maxRedirects) ==> Configured(c).maxRedirects == c.maxRedirects.value
    ensures c.headers == Some(map[]) ==> Configured(c).headers == DefaultHeaders
  {
  }

  /** Configured headers win over the defaults; defaults they do not name are kept. */
  lemma HeadersMerged(c: Config, name: string)
    ensures MapTruthy(c.headers) && name in c.headers.value ==>
              name in Configured(c).headers && Configured(c).headers[name] == c.headers.value[name]
    ensures name in DefaultHeaders && !(MapTruthy(c.headers) && name in c.headers.value) ==>
              name in Configured(c).headers && Configured(c).headers[name] == DefaultHeaders[name]
    ensures name in Configured(c).headers ==> name in DefaultHeaders || (c.headers.Some? && name in c.headers.value)
  {
  }

  /** A client given nothing but a base URL gets the library defaults plus the logger. */
  lemma NoConfigIsDefault()
    ensures Configured(NoConfig) == DefaultSettings.(hooks := [LogRequest])
  {
  }

  /** The exception `request` raises, or a transport failure it lets through. */
  datatype ClientError = SessionClosed(message: string) | TransportError(reason: string)

  const ClosedMessage: string := "Request session closed."

  /** The trace entries of closing the session `open`, if there is one. */
  function CloseEvents(open: Option<Session>): seq<Event> {
    if open.Some? then [Closed(open.value)] else []
  }

  class APIClient {
    /** `BASE_URL`: the constructor's base URL without trailing slashes. */
    const baseUrl: string
    const config: Config
    /** `req_session`: the open transport session, or `None` when closed. */
    var reqSession: Option<Session>
    /** What this client has done with its sessions, in order. */
    ghost var events: seq<Event>

    /** The trace is legal and the stored session is exactly the one it leaves open. */
    ghost predicate Valid()
      reads this
    {
      Legal(events) && reqSession == OpenAfter(events)
    }

    constructor(baseUrl: string, config: Config)
      ensures Valid()
      ensures this.baseUrl == NormalizeBase(baseUrl) && this.config == config
      ensures reqSession.Some? && fresh(reqSession.value)
      ensures reqSession.value.Current() == Configured(config)
      ensures events == [Opened(reqSession.value)]
    {
      this.baseUrl := NormalizeBase(baseUrl);
      this.config := config;
      reqSession := None;
      events := [];
      new;
      InitSession();
    }

    /**
      `init_session`: close any open session (recording exactly one close),
      then open a new session and configure it.
     */
    method InitSession()
      requires Valid()
      modifies this
      ensures Valid()
      ensures reqSession.Some? && fresh(reqSession.value)
      ensures reqSession.value.Current() == Configured(config)
      ensures events == old(events) + CloseEvents(old(reqSession)) + [Opened(reqSession.value)]
    {
      CloseSession();
      var s := new Session();
      OpenedWereAllocated(events, s);
      LegalAppend(events, Opened(s));
      events := events + [Opened(s)];
      reqSession := Some(s);
      Configure(s);
    }

    /**
      The configuration steps of `init_session` on a new session: register
      the logger, copy each setting under its guard, then append the
      caller's hooks after the logger.
     */
    method Configure(s: Session)
      requires s.Current() == DefaultSettings
      modifies s
      ensures s.Current() == Configured(config)
    {
      s.hooks := s.hooks + [LogRequest];
      ApplyRequestDefaults(s);
      ApplyCredentials(s);
      ApplyConnectionSettings(s);
      if HooksTruthy(config.responseHooks) {
        s.hooks := s.hooks + config.responseHooks.value;
      }
      assert s.hooks == [LogRequest] + ExtraHooks(config);
    }

    /** The settings every request carries: params and headers. */
    method ApplyRequestDefaults(s: Session)
      requires s.params == DefaultSettings.params && s.headers == DefaultSettings.headers
      modifies s`params, s`headers
      ensures s.params == ConfiguredParams(config) && s.headers == ConfiguredHeaders(config)
    {
      if MapTruthy(config.params) {
        s.params := config.params.value;
      }
      if MapTruthy(config.headers) {
        s.headers := s.headers + config.headers.value;
      }
    }

    /** Who the requests are sent as: auth and cookies. */
    method ApplyCredentials(s: Session)
      requires s.auth == DefaultSettings.auth && s.cookies == DefaultSettings.cookies
      modifies s`auth, s`cookies
      ensures s.auth == ConfiguredAuth(config) && s.cookies == ConfiguredCookies(config)
    {
      if AuthTruthy(config.auth) {
        s.auth := config.auth;
      }
      if MapTruthy(config.cookies) {
        s.cookies := config.cookies.value;
      }
    }

    /** The settings of the connection: proxies, verify, cert, max_redirects and stream. */
    method ApplyConnectionSettings(s: Session)
      requires s.proxies == DefaultSettings.proxies && s.verify == DefaultSettings.verify
      requires s.cert == DefaultSettings.cert && s.maxRedirects == DefaultSettings.maxRedirects
      requires s.stream == DefaultSettings.stream
      modifies s`proxies, s`verify, s`cert, s`maxRedirects, s`stream
      ensures s.proxies == ConfiguredProxies(config) && s.verify == ConfiguredVerify(config)
      ensures s.cert == ConfiguredCert(config) && s.maxRedirects == ConfiguredMaxRedirects(config)
      ensures s.stream == ConfiguredStream(config)
    {
      if MapTruthy(config.proxies) {
        s.proxies := config.proxies.value;
      }
      if config.verify.Some? {
        s.verify := config.verify.value;
      }
      if CertTruthy(config.cert) {
        s.cert := config.cert;
      }
      if IntTruthy(config.maxRedirects) {
        s.maxRedirects := config.maxRedirects.value;
      }
      if config.stream.Some? {
        s.stream := config.stream.value;
      }
    }

    /** `close_session`: close the open session, if any; afterwards there is none. */
    method CloseSession()
      requires Valid()
      modifies this
      ensures Valid() && reqSession.None?
      ensures events == old(events) + CloseEvents(old(reqSession))
    {
      if reqSession.Some? {
        var s := reqSession.value;
        LegalAppend(events, Closed(s));
        events := events + [Closed(s)];
      }
      reqSession := None;
    }

    /** `__enter__`: keep an open session as it is, open one only if closed. */
    method Enter() returns (self: APIClient)
      requires Valid()
      modifies this
      ensures self == this && Valid() && reqSession.Some?
      ensures old(reqSession).Some? ==> reqSession == old(reqSession) && events == old(events)
      ensures old(reqSession).None? ==>
                && fresh(reqSession.value)
                && reqSession.value.Current() == Configured(config)
                && events == old(events) + [Opened(reqSession.value)]
    {
      if reqSession.None? {
        InitSession();
      }
      self := this;
    }

    /** `__exit__`: always close, whatever ended the block. */
    method Exit()
      requires Valid()
      modifies this
      ensures Valid() && reqSession.None?
      ensures events == old(events) + CloseEvents(old(reqSession))
    {
      CloseSession();
    }

    /**
      What a call of `request` with these arguments did, given the session
      and trace before it: with no session it raised and touched nothing;
      otherwise it sent one request to the joined URL and wrapped the reply.
     */
    ghost predicate Requested(
      before: Option<Session>, trace: seq<Event>, verb: string, path: string, args: CallArgs,
      reply: Result<RawResponse, string>, decode: Decoder, r: Result<ApiResponse, ClientError>)
      reads this
    {
      && reqSession == before
      && match before
         case None =>
           r == Failure(SessionClosed(ClosedMessage)) && events == trace
         case Some(s) =>
           && events == trace + [Sent(s, verb, JoinUrl(baseUrl, path), args)]
           && r == match reply
                   case Success(raw) => Success(Wrap(raw, decode))
                   case Failure(e) => Failure(TransportError(e))
    }

    /**
      `request`: `reply` stands for what the transport answers (a response,
      or the error it raises) and `decode` for the response's JSON decoder.
     */
    method Request(verb: string, path: string, args: CallArgs, reply: Result<RawResponse, string>, decode: Decoder)
      returns (r: Result<ApiResponse, ClientError>)
      requires Valid()
      modifies this
      ensures Valid()
      ensures Requested(old(reqSession), old(events), verb, path, args, reply, decode, r)
    {
      if reqSession.None? {
        return Failure(SessionClosed(ClosedMessage));
      }
      var s := reqSession.value;
      var event := Sent(s, verb, JoinUrl(baseUrl, path), args);
      LegalAppend(events, event);
      events := events + [event];
      match reply
      case Success(raw) =>
        r := Success(Wrap(raw, decode));
      case Failure(e) =>
        r := Failure(TransportError(e));
    }

    method Get(path: string, args: CallArgs, reply: Result<RawResponse, string>, decode: Decoder)
      returns (r: Result<ApiResponse, ClientError>)
      requires Valid()
      modifies this
      ensures Valid()
      ensures Requested(old(reqSession), old(events), "GET", path, args, reply, decode, r)
    {
      r := Request("GET", path, args, reply, decode);
    }

    method Post(path: string, args: CallArgs, reply: Result<RawResponse, string>, decode: Decoder)
      returns (r: Result<ApiResponse, ClientError>)
      requires Valid()
      modifies this
      ensures Valid()
      ensures Requested(old(reqSession), old(events), "POST", path, args, reply, decode, r)
    {
      r := Request("POST", path, args, reply, decode);
    }

    method Put(path: string, args: CallArgs, reply: Result<RawResponse, string>, decode: Decoder)
      returns (r: Result<ApiResponse, ClientError>)
      requires Valid()
      modifies this
      ensures Valid()
      ensures Requested(old(reqSession), old(events), "PUT", path, args, reply, decode, r)
    {
      r := Request("PUT", path, args, reply, decode);
    }

    method Patch(path: string, args: CallArgs, reply: Result<RawResponse, string>, decode: Decoder)
      returns (r: Result<ApiResponse, ClientError>)
      requires Valid()
      modifies this
      ensures Valid()
      ensures Requested(old(reqSession), old(events), "PATCH", path, args, reply, decode, r)
    {
      r := Request("PATCH", path, args, reply, decode);
    }

    method Delete(path: string, args: CallArgs, reply: Result<RawResponse, string>, decode: Decoder)
      returns (r: Result<ApiResponse, ClientError>)
      requires Valid()
      modifies this
      ensures Valid()
      ensures Requested(old(reqSession), old(events), "DELETE", path, args, reply, decode, r)
    {
      r := Request("DELETE", path, args, reply, decode);
    }

    method Head(path: string, args: CallArgs, reply: Result<RawResponse, string>, decode: Decoder)
      returns (r: Result<ApiResponse, ClientError>)
      requires Valid()
      modifies this
      ensures Valid()
      ensures Requested(old(reqSession), old(events), "HEAD", path, args, reply, decode, r)
    {
      r := Request("HEAD", path, args, reply, decode);
    }

    method Options(path: string, args: CallArgs, reply: Result<RawResponse, string>, decode: Decoder)
      returns (r: Result<ApiResponse, ClientError>)
      requires Valid()
      modifies this
      ensures Valid()
      ensures Requested(old(reqSession), old(events), "OPTIONS", path, args, reply, decode, r)
    {
      r := Request("OPTIONS", path, args, reply, decode);
    }
  }

  /** A session created after the trace was recorded is not one the trace opened. */
  lemma OpenedWereAllocated(t: seq<Event>, s: Session)
    requires forall k :: 0 <= k < |t| ==> t[k].session != s
    ensures s !in OpenedIn(t)
  {
    OpenedInFromEvents(t, s);
  }

  lemma {:induction false} OpenedInFromEvents(t: seq<Event>, s: Session)
    ensures s in OpenedIn(t) ==> exists k :: 0 <= k < |t| && t[k] == Opened(s)
    decreases |t|
  {
    if t != [] {
      var p := t[..|t| - 1];
      OpenedInFromEvents(p, s);
      if s in OpenedIn(p) {
        var k :| 0 <= k < |p| && p[k] == Opened(s);
        assert t[k] == Opened(s);
      }
    }
  }

  /**
    After `close_session` (or leaving a `with` block) every request fails
    with the closed-session error and nothing is sent.
   */
  method RequestAfterClose(client: APIClient, path: string, args: CallArgs, reply: Result<RawResponse, string>, decode: Decoder)
    returns (r: Result<ApiResponse, ClientError>)
    requires client.Valid()
    modifies client
    ensures client.Valid() && client.reqSession.None?
    ensures r == Failure(SessionClosed(ClosedMessage))
    ensures client.events == old(client.events) + CloseEvents(old(client.reqSession))
  {
    client.CloseSession();
    r := client.Get(path, args, reply, decode);
  }
}
