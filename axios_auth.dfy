/** The request pipeline of an axios instance carrying the authentication
    interceptors of lib/client/shopwareAuthenticator.js (the class, here
    `Guarded`) or of lib/client/authInterceptors.js and
    lib/client/shopwareAuthentication.js (the same closure code, here
    `Unguarded`), as a function of the session, the request config and the
    scripted remote.

    axios runs a request as the chain request interceptor, send, response
    interceptor; a rejection of the request interceptor (a failed login)
    skips the send and reaches the response interceptor's error handler
    like any transport error. */
module AxiosAuth {
  import opened Common
  import opened Http

  /** `Guarded` tests `error.response &&` before reading its status and keeps
      the user id; `Unguarded` reads `error.response.status` directly and
      keeps only the token, which it resets to `null` rather than
      `undefined`. */
  datatype Variant = Guarded | Unguarded

  const TokenHeader := "X-Shopware-Token"
  const LoginPath := "accesstokens"
  const RenewalNotice := "Renewing auth data..."

  type Headers = map<string, Option<Json>>

  /** A request config: the fields the interceptors read or write. */
  datatype Cfg = Cfg(verb: Verb, path: string, noToken: bool, isRetryRequest: bool, headers: Option<Headers>, data: Json)

  datatype Credentials = Credentials(username: Option<string>, password: Option<string>)

  /** The state the interceptors keep between requests. */
  datatype Session = Session(accessToken: Option<Json>, userId: Option<Json>)

  /** What a successful login hands back: the token and, for `Guarded`,
      the user id read from the response body. */
  datatype Grant = Grant(token: Option<Json>, userId: Option<Json>)

  datatype Outcome<T> = Outcome(result: Result<T>, session: Session, net: Net)

  /** The state right after registration: `undefined` fields in the class,
      `let accessToken = null` in the closures. */
  function Initial(v: Variant): (s: Session)
    ensures !IsTruthy(s.accessToken) && s.userId.None?
  {
    if v.Guarded? then Session(None, None) else Session(Some(JNull), None)
  }

  /** The renewal handler's reset of the token; the user id stays. */
  function Cleared(v: Variant, s: Session): (r: Session)
    ensures !IsTruthy(r.accessToken) && r.userId == s.userId
  {
    s.(accessToken := if v.Guarded? then None else Some(JNull))
  }

  /** Storing a login's grant: the class keeps token and user id, the
      closures assign the token only. */
  function Stored(v: Variant, s: Session, g: Grant): (r: Session)
    ensures r.accessToken == g.token
    ensures r.userId == (if v.Guarded? then g.userId else s.userId)
  {
    if v.Guarded? then Session(g.token, g.userId) else s.(accessToken := g.token)
  }

  /** `{ shopwareId: username, password }` as axios serialises it: keys whose
      value is `undefined` are dropped. */
  function LoginBody(who: Credentials): (j: Json)
    ensures j.JObj? && ("shopwareId" in j.props <==> who.username.Some?) && ("password" in j.props <==> who.password.Some?)
  {
    var m: map<string, Json> := map[];
    var m := if who.username.Some? then m["shopwareId" := JStr(who.username.value)] else m;
    JObj(if who.password.Some? then m["password" := JStr(who.password.value)] else m)
  }

  /** The config of the login request: a POST to `accesstokens` that the
      request interceptor lets through untouched. */
  function LoginCfg(who: Credentials): Cfg {
    Cfg(Post, LoginPath, true, false, None, LoginBody(who))
  }

  /** The physical request a config produces. */
  function SentOf(cfg: Cfg): Sent {
    Sent(cfg.verb, cfg.path, cfg.headers, cfg.data, None)
  }

  /** Setting `X-Shopware-Token` on the config's headers, creating the
      headers object when there is none. */
  function WithToken(headers: Option<Headers>, token: Option<Json>): (r: Option<Headers>)
    ensures r.Some? && TokenHeader in r.value && r.value[TokenHeader] == token
    ensures headers.Some? ==> r.value.Keys == headers.value.Keys + {TokenHeader}
    ensures headers.Some? ==> forall k :: k in headers.value && k != TokenHeader ==> r.value[k] == headers.value[k]
    ensures headers.None? ==> r.value.Keys == {TokenHeader}
  {
    if headers.Some? then Some(headers.value[TokenHeader := token]) else Some(map[TokenHeader := token])
  }

  /** The config the request interceptor passes on, once the session it
      left behind holds `token`. */
  function Authorized(cfg: Cfg, token: Option<Json>): Cfg {
    if cfg.noToken then cfg else cfg.(headers := WithToken(cfg.headers, token))
  }

  /** The error axios rejects with for a reply that is not a success. An
      axios response has no `unauthorized` property, so the error never
      carries that flag, whatever the server said. */
  function AxiosError(reply: Reply): (e: Error)
    ensures Unflagged(e)
    ensures reply.Answer? ==> e == HttpError(reply.status, false, reply.message)
    ensures reply.NoAnswer? ==> e == ErrorOf(reply)
  {
    if reply.Answer? then HttpError(reply.status, false, reply.message) else ErrorOf(reply)
  }

  /** `err.response && err.response.unauthorized` is false of the error. */
  predicate Unflagged(e: Error) {
    !(e.HttpError? && e.unauthorized)
  }

  /** The TypeError of reading `status` of an `undefined` response. */
  function StatusOfUndefined(): (e: Error)
    ensures e.TypeError?
  {
    Prop(None, "status").error
  }

  /** The error the response interceptor rejects with, for an error the
      request interceptor raised. Only an error carrying a response can
      pass the unguarded read; such an error comes out of the login request
      after its own 401 retry (its config is already marked as retried) or
      has another status, so it is passed on. */
  function Rejected(v: Variant, e: Error): (r: Error)
    ensures v.Guarded? || e.HttpError? ==> r == e
    ensures v.Unguarded? && !e.HttpError? ==> r.TypeError?
  {
    if v.Unguarded? && !e.HttpError? then StatusOfUndefined() else e
  }

  /** A request config object, which the interceptors change in place. */
  class Config {
    const verb: Verb
    const path: string
    const noToken: bool
    const data: Json
    var isRetryRequest: bool
    var headers: Option<Headers>

    constructor (verb: Verb, path: string, noToken: bool, headers: Option<Headers>, data: Json)
      ensures Value() == Cfg(verb, path, noToken, false, headers, data)
    {
      this.verb, this.path, this.noToken, this.data := verb, path, noToken, data;
      this.isRetryRequest, this.headers := false, headers;
    }

    function Value(): Cfg
      reads this
    {
      Cfg(verb, path, noToken, isRetryRequest, headers, data)
    }
  }

  /** Decreases with each step towards a request that cannot log in or be
      retried. */
  function Rank(cfg: Cfg): nat {
    (if cfg.noToken then 0 else 2) + (if cfg.isRetryRequest then 0 else 1)
  }

  /** `axios(config)`: what the request resolves or rejects with, the
      session and remote afterwards, and the config object as the
      interceptors left it. A request resolves only with a success. */
  function Request(v: Variant, who: Credentials, cfg: Cfg, s: Session, net: Net): (r: (Outcome<Reply>, Cfg))
    ensures r.0.result.Ok? ==> IsSuccess(r.0.result.value)
    ensures r.1.verb == cfg.verb && r.1.path == cfg.path && r.1.noToken == cfg.noToken && r.1.data == cfg.data
    ensures v.Unguarded? ==> r.0.session.userId == s.userId
    ensures r.0.result.Fail? ==> Unflagged(r.0.result.error)
    decreases Rank(cfg), 2
  {
    var p := Authorize(v, who, cfg, s, net);
    if p.result.Fail? then (Outcome(Fail(Rejected(v, p.result.error)), p.session, p.net), cfg)
    else
      var c := Authorized(cfg, p.session.accessToken);
      var (reply, sent) := Transmit(p.net, SentOf(c));
      if IsSuccess(reply) then (Outcome(Ok(reply), p.session, sent), c)
      else Recover(v, who, reply, c, p.session, sent)
  }

  /** The request interceptor: a config without `noToken` makes it log in
      when no truthy token is cached. */
  function Authorize(v: Variant, who: Credentials, cfg: Cfg, s: Session, net: Net): (r: Outcome<()>)
    ensures v.Unguarded? ==> r.session.userId == s.userId
    ensures r.result.Fail? ==> Unflagged(r.result.error)
    decreases Rank(cfg), 1
  {
    if cfg.noToken || IsTruthy(s.accessToken) then Outcome(Ok(()), s, net)
    else
      var l := Login(v, who, s, net);
      if l.result.Fail? then Outcome(Fail(l.result.error), l.session, l.net)
      else Outcome(Ok(()), Stored(v, l.session, l.result.value), l.net)
  }

  /** The `catch` of `login()`: an error whose response is flagged
      unauthorized becomes "Login failed: <message>"; any other is rethrown
      as it came. */
  function LoginError(e: Error): (r: Error)
    ensures Unflagged(e) ==> r == e
    ensures !Unflagged(e) ==> r == LoginFailed(e.message)
  {
    if e.HttpError? && e.unauthorized then LoginFailed(e.message) else e
  }

  /** `login()`: announce, post the credentials with `noToken` through the
      same instance, announce success and read the grant from the body. An
      unauthorized failure would become "Login failed: <message>", but no
      axios error is flagged unauthorized, so every error is rethrown as it
      came. */
  function Login(v: Variant, who: Credentials, s: Session, net: Net): (r: Outcome<Grant>)
    ensures v.Unguarded? ==> r.session.userId == s.userId && (r.result.Ok? ==> r.result.value.userId.None?)
    ensures r.result.Fail? ==> Unflagged(r.result.error) && !r.result.error.LoginFailed?
    decreases 2, 0
  {
    var (o, _) := Request(v, who, LoginCfg(who), s, Emitted(net, LoggingIn));
    if o.result.Fail? then
      Outcome(Fail(LoginError(o.result.error)), o.session, o.net)
    else
      var body := Some(o.result.value.data);
      var n := Emitted(o.net, LoginSuccessful);
      match Prop(body, "token")
      case Fail(e) => Outcome(Fail(e), o.session, n)
      case Ok(token) =>
        var userId := if v.Guarded? then Prop(body, "userId").value else None;
        Outcome(Ok(Grant(token, userId)), o.session, n)
  }

  /** The response interceptor's error handler for a send that did not
      succeed: a first 401 marks the config as retried, drops the token,
      announces the renewal and issues the same config again. */
  function Recover(v: Variant, who: Credentials, reply: Reply, cfg: Cfg, s: Session, net: Net): (r: (Outcome<Reply>, Cfg))
    requires !IsSuccess(reply)
    ensures r.0.result.Ok? ==> IsSuccess(r.0.result.value)
    ensures r.1.verb == cfg.verb && r.1.path == cfg.path && r.1.noToken == cfg.noToken && r.1.data == cfg.data
    ensures v.Unguarded? ==> r.0.session.userId == s.userId
    ensures r.0.result.Fail? ==> Unflagged(r.0.result.error)
    decreases Rank(cfg), 0
  {
    if v.Unguarded? && reply.NoAnswer? then (Outcome(Fail(StatusOfUndefined()), s, net), cfg)
    else if reply.Answer? && reply.status == 401 && !cfg.isRetryRequest then
      Request(v, who, cfg.(isRetryRequest := true), Cleared(v, s), Emitted(net, Info(RenewalNotice)))
    else (Outcome(Fail(AxiosError(reply)), s, net), cfg)
  }

  // ----- what the interceptors promise ------------------------------------------

  /** A send that carries the token header, i.e. a send of a request the
      interceptor authorized. */
  predicate CarriesToken(x: Sent) {
    x.headers.Some? && TokenHeader in x.headers.value
  }

  /** The number of sends that carry the token header. */
  function TokenSends(sent: seq<Sent>): nat {
    if sent == [] then 0 else TokenSends(sent[..|sent| - 1]) + (if CarriesToken(sent[|sent| - 1]) then 1 else 0)
  }

  /** The number of logins announced. */
  function Logins(events: seq<Event>): nat {
    if events == [] then 0 else Logins(events[..|events| - 1]) + (if events[|events| - 1] == LoggingIn then 1 else 0)
  }

  /** A `noToken` config never triggers a login: it is sent as given, once,
      or twice when the first send gets a 401; the only announcement is that
      renewal, and the only change to the session is its reset. */
  lemma {:induction false} NoTokenNeverLogsIn(v: Variant, who: Credentials, cfg: Cfg, s: Session, net: Net)
    requires cfg.noToken
    ensures var r := Request(v, who, cfg, s, net); var o, c := r.0, r.1;
      && c == cfg.(isRetryRequest := c.isRetryRequest)
      && |net.sent| < |o.net.sent| <= |net.sent| + (if cfg.isRetryRequest then 1 else 2)
      && o.net.sent[..|net.sent|] == net.sent
      && (forall i :: |net.sent| <= i < |o.net.sent| ==> o.net.sent[i] == SentOf(cfg))
      && (!CarriesToken(SentOf(cfg)) ==> TokenSends(o.net.sent) == TokenSends(net.sent))
      && Logins(o.net.events) == Logins(net.events)
      && (o.session == s || o.session == Cleared(v, s))
    decreases Rank(cfg)
  {
    var t := Transmit(net, SentOf(cfg));
    var reply, sent := t.0, t.1;
    NoTokenSendsAsGiven(v, who, cfg, s, net);
    assert sent.sent[..|sent.sent| - 1] == net.sent;
    if !IsSuccess(reply) && !(v.Unguarded? && reply.NoAnswer?) && reply.Answer? && reply.status == 401 && !cfg.isRetryRequest {
      var retry := cfg.(isRetryRequest := true);
      var renewed := Emitted(sent, Info(RenewalNotice));
      assert renewed.events[..|renewed.events| - 1] == sent.events;
      NoTokenNeverLogsIn(v, who, retry, Cleared(v, s), renewed);
      var o := Request(v, who, retry, Cleared(v, s), renewed).0;
      assert o.net.sent[..|net.sent|] == o.net.sent[..|renewed.sent|][..|net.sent|];
    }
  }

  /** A `noToken` config is sent as given, without a login. */
  lemma NoTokenSendsAsGiven(v: Variant, who: Credentials, cfg: Cfg, s: Session, net: Net)
    requires cfg.noToken
    ensures var t := Transmit(net, SentOf(cfg));
      Request(v, who, cfg, s, net) == if IsSuccess(t.0) then (Outcome(Ok(t.0), s, t.1), cfg) else Recover(v, who, t.0, cfg, s, t.1)
  {
  }

  /** Logging in adds one login announcement and sends only the login
      request, which carries no token; a failed login leaves no truthy
      token behind. */
  lemma LoginSendsNoToken(v: Variant, who: Credentials, s: Session, net: Net)
    ensures var l := Login(v, who, s, net);
      && TokenSends(l.net.sent) == TokenSends(net.sent)
      && Logins(l.net.events) == Logins(net.events) + 1
      && (l.result.Fail? && !IsTruthy(s.accessToken) ==> !IsTruthy(l.session.accessToken))
  {
    var announced := Emitted(net, LoggingIn);
    assert announced.events[..|announced.events| - 1] == net.events;
    NoTokenNeverLogsIn(v, who, LoginCfg(who), s, announced);
    var (o, _) := Request(v, who, LoginCfg(who), s, announced);
    var n := Emitted(o.net, LoginSuccessful);
    assert n.events[..|n.events| - 1] == o.net.events;
  }

  /** Every request is sent with the token at most twice, and logs in at
      most twice: once before the first send when no token is cached, and
      once more after a 401, on the single retry. A config already marked
      as retried gets one of each at most. */
  lemma {:induction false} RetriedAtMostOnce(v: Variant, who: Credentials, cfg: Cfg, s: Session, net: Net)
    requires !cfg.noToken
    ensures var o := Request(v, who, cfg, s, net).0;
      && TokenSends(o.net.sent) <= TokenSends(net.sent) + (if cfg.isRetryRequest then 1 else 2)
      && Logins(o.net.events) <= Logins(net.events) + (if cfg.isRetryRequest then 1 else 2)
    decreases Rank(cfg), 1
  {
    var p := Authorize(v, who, cfg, s, net);
    if !IsTruthy(s.accessToken) {
      LoginSendsNoToken(v, who, s, net);
    }
    assert TokenSends(p.net.sent) == TokenSends(net.sent) && Logins(p.net.events) <= Logins(net.events) + 1;
    if p.result.Ok? {
      var c := Authorized(cfg, p.session.accessToken);
      var (reply, sent) := Transmit(p.net, SentOf(c));
      assert sent.sent[..|sent.sent| - 1] == p.net.sent;
      assert TokenSends(sent.sent) == TokenSends(net.sent) + 1;
      if !IsSuccess(reply) {
        SentThenRecovered(v, who, reply, c, p.session, sent);
      }
    }
  }

  /** The retry step of `RetriedAtMostOnce`. */
  lemma {:induction false} SentThenRecovered(v: Variant, who: Credentials, reply: Reply, c: Cfg, s: Session, net: Net)
    requires !c.noToken && !IsSuccess(reply)
    ensures var o := Recover(v, who, reply, c, s, net).0;
      && TokenSends(o.net.sent) <= TokenSends(net.sent) + (if c.isRetryRequest then 0 else 1)
      && Logins(o.net.events) <= Logins(net.events) + (if c.isRetryRequest then 0 else 1)
    decreases Rank(c), 0
  {
    if !(v.Unguarded? && reply.NoAnswer?) && reply.Answer? && reply.status == 401 && !c.isRetryRequest {
      var renewed := Emitted(net, Info(RenewalNotice));
      assert renewed.events[..|renewed.events| - 1] == net.events;
      RetriedAtMostOnce(v, who, c.(isRetryRequest := true), Cleared(v, s), renewed);
    }
  }

  /** A successful login response whose body holds `token`. */
  predicate Grants(grant: Reply, token: Json) {
    IsSuccess(grant) && grant.data.JObj? && "token" in grant.data.props && grant.data.props["token"] == token
  }

  /** A login answered by a grant: one send of the login request, both
      announcements, and the token (and, in the class, the user id) of the
      body handed back; the session is as before. */
  lemma LoginGranted(v: Variant, who: Credentials, s: Session, net: Net, token: Json)
    requires net.script != [] && Grants(net.script[0], token)
    ensures Login(v, who, s, net) == Outcome(
      Ok(Grant(Some(token), if v.Guarded? then Prop(Some(net.script[0].data), "userId").value else None)),
      s, Net(net.script[1..], net.sent + [SentOf(LoginCfg(who))], net.events + [LoggingIn, LoginSuccessful], net.sleeps))
  {
    var announced := Emitted(net, LoggingIn);
    assert Request(v, who, LoginCfg(who), s, announced).0 == Outcome(Ok(net.script[0]), s, Transmit(announced, SentOf(LoginCfg(who))).1);
  }

  /** A cached truthy token is used as it is: one send, carrying it, and no
      login. */
  lemma CachedTokenUsed(v: Variant, who: Credentials, cfg: Cfg, s: Session, net: Net)
    requires !cfg.noToken && IsTruthy(s.accessToken)
    requires net.script != [] && IsSuccess(net.script[0])
    ensures var c := Authorized(cfg, s.accessToken);
      Request(v, who, cfg, s, net) == (Outcome(Ok(net.script[0]), s, net.(script := net.script[1..], sent := net.sent + [SentOf(c)])), c)
  {
  }

  /** Without a truthy token the request logs in first, announcing it
      before and after, stores the token (and, in the class, the user id)
      and sends the config with that token in its headers. */
  lemma FirstRequestLogsIn(v: Variant, who: Credentials, cfg: Cfg, s: Session, net: Net, token: Json)
    requires !cfg.noToken && !IsTruthy(s.accessToken)
    requires |net.script| >= 2 && Grants(net.script[0], token) && IsSuccess(net.script[1])
    ensures var r := Request(v, who, cfg, s, net); var o, c := r.0, r.1;
      && o.result == Ok(net.script[1])
      && o.session.accessToken == Some(token)
      && (v.Guarded? ==> o.session.userId == Prop(Some(net.script[0].data), "userId").value)
      && c == Authorized(cfg, Some(token))
      && o.net.sent == net.sent + [SentOf(LoginCfg(who)), SentOf(c)]
      && o.net.events == net.events + [LoggingIn, LoginSuccessful]
      && o.net.script == net.script[2..]
  {
    LoginGranted(v, who, s, net, token);
    }

  /** An expired token: the first send gets a 401, the token is dropped, a
      new login runs, and the same config, now marked as retried and
      carrying the new token, is sent again. */
  lemma RenewedOnce(v: Variant, who: Credentials, cfg: Cfg, s: Session, net: Net, token: Json)
    requires !cfg.noToken && !cfg.isRetryRequest && IsTruthy(s.accessToken)
    requires |net.script| >= 3 && net.script[0].Answer? && net.script[0].status == 401
    requires Grants(net.script[1], token) && IsSuccess(net.script[2])
    ensures var r := Request(v, who, cfg, s, net); var o, c := r.0, r.1;
      && o.result == Ok(net.script[2])
      && o.session.accessToken == Some(token)
      && c.isRetryRequest && c.headers.Some? && TokenHeader in c.headers.value && c.headers.value[TokenHeader] == Some(token)
      && o.net.sent == net.sent + [SentOf(Authorized(cfg, s.accessToken)), SentOf(LoginCfg(who)), SentOf(c)]
      && o.net.events == net.events + [Info(RenewalNotice), LoggingIn, LoginSuccessful]
  {
    var c0 := Authorized(cfg, s.accessToken);
    var (reply, sent) := Transmit(net, SentOf(c0));
    var renewed := Emitted(sent, Info(RenewalNotice));
    assert Request(v, who, cfg, s, net) == Request(v, who, c0.(isRetryRequest := true), Cleared(v, s), renewed);
    FirstRequestLogsIn(v, who, c0.(isRetryRequest := true), Cleared(v, s), renewed, token);
    }

  /** A second 401, on the retried config, is rejected as it came. */
  lemma SecondUnauthorizedRejected(v: Variant, who: Credentials, cfg: Cfg, s: Session, net: Net, token: Json)
    requires !cfg.noToken && !cfg.isRetryRequest && IsTruthy(s.accessToken)
    requires |net.script| >= 3 && net.script[0].Answer? && net.script[0].status == 401
    requires Grants(net.script[1], token) && net.script[2].Answer? && net.script[2].status == 401
    ensures var r := Request(v, who, cfg, s, net); var o, c := r.0, r.1;
      && o.result == Fail(AxiosError(net.script[2]))
      && c.isRetryRequest
      && |o.net.sent| == |net.sent| + 3
  {
    var c0 := Authorized(cfg, s.accessToken);
    var (reply, sent) := Transmit(net, SentOf(c0));
    var renewed := Emitted(sent, Info(RenewalNotice));
    var retry := c0.(isRetryRequest := true);
    assert Request(v, who, cfg, s, net) == Request(v, who, retry, Cleared(v, s), renewed);
    LoginGranted(v, who, Cleared(v, s), renewed, token);
    var p := Authorize(v, who, retry, Cleared(v, s), renewed);
    assert p.result.Ok? && |p.net.sent| == |net.sent| + 2 && p.net.script == net.script[2..];
    var c1 := Authorized(retry, p.session.accessToken);
    var (again, last) := Transmit(p.net, SentOf(c1));
    assert again == net.script[2] && c1.isRetryRequest;
    assert Request(v, who, retry, Cleared(v, s), renewed) == (Outcome(Fail(AxiosError(again)), p.session, last), c1);
    }

  /** A response other than a success or a 401 is rejected as it came,
      after one send and with the session unchanged. */
  lemma OtherStatusRejected(v: Variant, who: Credentials, cfg: Cfg, s: Session, net: Net)
    requires cfg.noToken || IsTruthy(s.accessToken)
    requires net.script != [] && net.script[0].Answer? && !IsSuccess(net.script[0]) && net.script[0].status != 401
    ensures var r := Request(v, who, cfg, s, net); var o, c := r.0, r.1;
      && o.result == Fail(HttpError(net.script[0].status, false, net.script[0].message))
      && o.session == s && |o.net.sent| == |net.sent| + 1
  {
  }

  /** A send that gets no response is rejected with the transport's error
      by the class; the closures' unguarded `error.response.status` throws a
      TypeError instead. */
  lemma ResponseLessError(v: Variant, who: Credentials, cfg: Cfg, s: Session, net: Net)
    requires cfg.noToken || IsTruthy(s.accessToken)
    requires NextReply(net.script).NoAnswer?
    ensures var o := Request(v, who, cfg, s, net).0;
      && (v.Guarded? ==> o.result == Fail(NetworkError(NextReply(net.script).message)))
      && (v.Unguarded? ==> o.result.Fail? && o.result.error.TypeError?)
  {
  }

  /** A login the server refuses twice with a 401 (the login request is
      itself renewed once): since no axios error is flagged unauthorized,
      "Login failed" is never produced, and both the class and the closures
      reject the request with the raw 401 of the second refusal. The login's
      config is already marked as retried, so even the closures' unguarded
      status read passes it on. No token is stored either way. */
  lemma UnauthorizedLogin(v: Variant, who: Credentials, cfg: Cfg, s: Session, net: Net)
    requires !cfg.noToken && !IsTruthy(s.accessToken)
    requires |net.script| >= 2 && net.script[0].Answer? && net.script[0].status == 401
    requires net.script[1].Answer? && net.script[1].status == 401
    ensures var r := Request(v, who, cfg, s, net); var o, c := r.0, r.1;
      && c == cfg
      && !IsTruthy(o.session.accessToken)
      && o.net.sent == net.sent + [SentOf(LoginCfg(who)), SentOf(LoginCfg(who))]
      && o.net.events == net.events + [LoggingIn, Info(RenewalNotice)]
      && o.result == Fail(HttpError(401, false, net.script[1].message))
  {
    var announced := Emitted(net, LoggingIn);
    var (first, sent) := Transmit(announced, SentOf(LoginCfg(who)));
    var renewed := Emitted(sent, Info(RenewalNotice));
    var retry := LoginCfg(who).(isRetryRequest := true);
    var (second, resent) := Transmit(renewed, SentOf(retry));
    assert Request(v, who, retry, Cleared(v, s), renewed).0 == Outcome(Fail(AxiosError(net.script[1])), Cleared(v, s), resent);
    assert Request(v, who, LoginCfg(who), s, announced).0 == Request(v, who, retry, Cleared(v, s), renewed).0;
    assert Login(v, who, s, net) == Outcome(Fail(HttpError(401, false, net.script[1].message)), Cleared(v, s), resent);
  }
}
