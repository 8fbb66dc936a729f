/**
  The transport session as the client sees it: the settings the client
  writes onto a fresh session, and a trace of what the client did with its
  sessions (opened one, closed one, sent a request through one).
 */
module Transport {
  import opened Wrappers
  import Response
  import Auth

  /** A response hook. The client's own request logger is one; callers may add others. */
  datatype Hook = LogRequest | UserHook(name: string)

  /** What the client may install as the session's authentication. */
  datatype AuthSetting = BasicAuth(user: string, password: string) | Token(auth: Auth.TokenAuth)

  /** TLS verification: a flag, or the path of a CA bundle. */
  datatype Verify = VerifyFlag(on: bool) | CaBundle(path: string)

  /** A client certificate: one file, or a certificate and key pair. */
  datatype Cert = CertFile(path: string) | CertPair(certPath: string, keyPath: string)

  /** A session's settings, with its list of response hooks. */
  datatype Settings = Settings(
    params: map<string, string>,
    headers: map<string, string>,
    auth: Option<AuthSetting>,
    cookies: map<string, string>,
    proxies: map<string, string>,
    verify: Verify,
    cert: Option<Cert>,
    maxRedirects: int,
    stream: bool,
    hooks: seq<Hook>)

  /** The transport library's redirect limit for a new session. */
  const DefaultMaxRedirects: int := 30

  /** The headers a new session starts with (the user agent's version is not modelled). */
  const DefaultHeaders: map<string, string> := map[
    "User-Agent" := "python-requests",
    "Accept-Encoding" := "gzip, deflate",
    "Accept" := "*/*",
    "Connection" := "keep-alive"]

  /** The settings of a new session, before the client touches it. */
  const DefaultSettings: Settings := Settings(
    map[], DefaultHeaders, None, map[], map[], VerifyFlag(true), None,
    DefaultMaxRedirects, false, [])

  /** A transport session; the client writes its settings one by one. */
  class Session {
    var params: map<string, string>
    var headers: map<string, string>
    var auth: Option<AuthSetting>
    var cookies: map<string, string>
    var proxies: map<string, string>
    var verify: Verify
    var cert: Option<Cert>
    var maxRedirects: int
    var stream: bool
    var hooks: seq<Hook>

    function Current(): Settings
      reads this
    {
      Settings(params, headers, auth, cookies, proxies, verify, cert, maxRedirects, stream, hooks)
    }

    constructor()
      ensures Current() == DefaultSettings
    {
      params, headers, auth, cookies, proxies := map[], DefaultHeaders, None, map[], map[];
      verify, cert, maxRedirects, stream, hooks := VerifyFlag(true), None, DefaultMaxRedirects, false, [];
    }
  }

  /** Per-call arguments `request` passes through to the transport unchanged; `None` when not given. */
  datatype CallArgs = CallArgs(
    params: Option<map<string, string>>,
    data: Option<string>,
    json: Option<Response.Json>,
    headers: Option<map<string, string>>)

  /** What the client did with a session. */
  datatype Event =
    | Opened(session: Session)
    | Closed(session: Session)
    | Sent(session: Session, verb: string, url: string, args: CallArgs)

  /** The session open after the trace `t`, if any. */
  ghost function OpenAfter(t: seq<Event>): Option<Session>
    decreases |t|
  {
    if t == [] then None
    else match t[|t| - 1]
      case Opened(s) => Some(s)
      case Closed(_) => None
      case Sent(_, _, _, _) => OpenAfter(t[..|t| - 1])
  }

  /** Every session the trace `t` has opened. */
  ghost function OpenedIn(t: seq<Event>): set<Session>
    decreases |t|
  {
    if t == [] then {}
    else OpenedIn(t[..|t| - 1]) + (if t[|t| - 1].Opened? then {t[|t| - 1].session} else {})
  }

  /**
    The event `e` may follow the trace `t`: a session is opened only when
    none is open and only if it was never opened before; only the open
    session is closed or sent a request.
   */
  ghost predicate Allowed(t: seq<Event>, e: Event) {
    match e
    case Opened(s) => OpenAfter(t).None? && s !in OpenedIn(t)
    case Closed(s) => OpenAfter(t) == Some(s)
    case Sent(s, _, _, _) => OpenAfter(t) == Some(s)
  }

  /** Every event of `t` was allowed where it happened. */
  ghost predicate Legal(t: seq<Event>)
    decreases |t|
  {
    t == [] || (Legal(t[..|t| - 1]) && Allowed(t[..|t| - 1], t[|t| - 1]))
  }

  /** Appending an allowed event keeps a trace legal; its effect on the open session and the opened set. */
  lemma LegalAppend(t: seq<Event>, e: Event)
    requires Legal(t) && Allowed(t, e)
    ensures Legal(t + [e])
    ensures OpenAfter(t + [e]) == (match e case Opened(s) => Some(s) case Closed(_) => None case Sent(_, _, _, _) => OpenAfter(t))
    ensures OpenedIn(t + [e]) == OpenedIn(t) + (if e.Opened? then {e.session} else {})
  {
    assert (t + [e])[..|t|] == t;
  }

  /** The prefix of a legal trace is legal. */
  lemma {:induction false} LegalPrefix(t: seq<Event>, n: nat)
    requires Legal(t) && n <= |t|
    ensures Legal(t[..n])
    decreases |t| - n
  {
    if n < |t| {
      var p := t[..|t| - 1];
      assert p[..n] == t[..n];
      LegalPrefix(p, n);
    } else {
      assert t[..n] == t;
    }
  }

  /** In a legal trace, each event was allowed after the events before it. */
  lemma LegalAt(t: seq<Event>, k: nat)
    requires Legal(t) && k < |t|
    ensures Allowed(t[..k], t[k])
  {
    LegalPrefix(t, k + 1);
    var u := t[..k + 1];
    assert u[..k] == t[..k] && u[k] == t[k];
  }

  /** The open session is one the trace opened. */
  lemma {:induction false} OpenWasOpened(t: seq<Event>)
    requires Legal(t)
    ensures OpenAfter(t).Some? ==> OpenAfter(t).value in OpenedIn(t)
    decreases |t|
  {
    if t != [] {
      OpenWasOpened(t[..|t| - 1]);
    }
  }

  /** One more event cannot reopen a session that was opened before and is not open now. */
  lemma StaysClosedStep(t: seq<Event>, e: Event, s: Session)
    requires Legal(t) && Allowed(t, e)
    requires OpenAfter(t) != Some(s) && s in OpenedIn(t)
    ensures OpenAfter(t + [e]) != Some(s) && s in OpenedIn(t + [e])
  {
    LegalAppend(t, e);
  }

  /** Closing the open session leaves it closed and known as opened. */
  lemma CloseStep(t: seq<Event>, s: Session)
    requires Legal(t) && Allowed(t, Closed(s))
    ensures OpenAfter(t + [Closed(s)]) != Some(s) && s in OpenedIn(t + [Closed(s)])
  {
    LegalAppend(t, Closed(s));
    OpenWasOpened(t);
  }

  /** The first `n` events are the first `n - 1` and then event `n - 1`. */
  lemma Snoc(t: seq<Event>, n: nat)
    requires 0 < n <= |t|
    ensures t[..n] == t[..n - 1] + [t[n - 1]]
  {
  }

  /** Once a session is closed it is never open again, and stays known as opened. */
  lemma {:induction false} StaysClosed(t: seq<Event>, i: nat, n: nat)
    requires Legal(t) && i < n <= |t| && t[i].Closed?
    ensures OpenAfter(t[..n]) != Some(t[i].session)
    ensures t[i].session in OpenedIn(t[..n])
    decreases n
  {
    var p, e := t[..n - 1], t[n - 1];
    LegalPrefix(t, n - 1);
    LegalAt(t, n - 1);
    Snoc(t, n);
    if n == i + 1 {
      CloseStep(p, t[i].session);
    } else {
      StaysClosed(t, i, n - 1);
      StaysClosedStep(p, e, t[i].session);
    }
  }

  /**
    After a session is closed, no later event mentions it: it is not sent
    another request, not closed a second time and not reopened.
   */
  lemma NothingAfterClose(t: seq<Event>, i: nat, j: nat)
    requires Legal(t) && i < j < |t| && t[i].Closed?
    ensures t[j].session != t[i].session
  {
    StaysClosed(t, i, j);
    LegalAt(t, j);
  }

  /** A session is opened at most once. */
  lemma OpenedOnce(t: seq<Event>, i: nat, j: nat)
    requires Legal(t) && i < j < |t| && t[i].Opened? && t[j].Opened?
    ensures t[i].session != t[j].session
  {
    OpenedInGrows(t, i + 1, j);
    Snoc(t, i + 1);
    LegalAt(t, j);
  }

  lemma {:induction false} OpenedInGrows(t: seq<Event>, m: nat, n: nat)
    requires m <= n <= |t|
    ensures OpenedIn(t[..m]) <= OpenedIn(t[..n])
    decreases n
  {
    if m < n {
      OpenedInGrows(t, m, n - 1);
      assert t[..n][..n - 1] == t[..n - 1];
    }
  }

  /** A request or a close only ever goes to the session open at that moment. */
  lemma UsedOnlyWhileOpen(t: seq<Event>, j: nat)
    requires Legal(t) && j < |t| && !t[j].Opened?
    ensures OpenAfter(t[..j]) == Some(t[j].session)
  {
    LegalAt(t, j);
  }
}
