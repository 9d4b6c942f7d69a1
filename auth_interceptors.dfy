/** The closure-based authentication of lib/client/authInterceptors.js, whose
    code lib/client/shopwareAuthentication.js repeats: the exported function
    keeps `accessToken` in a closure variable shared by a request interceptor
    that logs in and adds the token, and a response interceptor that renews
    it once on a 401. The closure is an object here, its variable a field. */
module AuthInterceptors {
  import opened Common
  import opened Http
  import opened AxiosAuth

  class Interceptors {
    var accessToken: Option<Json>
    const user: Option<string>
    const pass: Option<string>
    const customAxios: Remote

    function Session(): AxiosAuth.Session
      reads this
    {
      AxiosAuth.Session(accessToken, None)
    }

    function Who(): Credentials {
      Credentials(user, pass)
    }

    /** Registering the interceptors: the token starts as `null`. */
    constructor (customAxios: Remote, user: Option<string>, pass: Option<string>)
      ensures Session() == Initial(Unguarded) && accessToken == Some(JNull)
      ensures this.user == user && this.pass == pass && this.customAxios == customAxios
    {
      accessToken := Some(JNull);
      this.user, this.pass, this.customAxios := user, pass, customAxios;
    }

    /** `customAxios(config)` with both interceptors registered. */
    method Request(config: Config) returns (r: Result<Reply>)
      modifies this, customAxios, config
      ensures (Outcome(r, Session(), customAxios.net), config.Value()) == AxiosAuth.Request(Unguarded, Who(), old(config.Value()), old(Session()), old(customAxios.net))
      decreases Rank(config.Value()), 2
    {
      var authorized := TokenInterceptor(config);
      if authorized.Fail? {
        return Fail(Rejected(Unguarded, authorized.error));
      }
      var reply := customAxios.Send(SentOf(config.Value()));
      if IsSuccess(reply) {
        return Ok(reply);
      }
      r := RetryOnUnauthorized(reply, config);
    }

    /** The request interceptor: `accessToken = await login(...)` when the
        token is falsy, then `X-Shopware-Token`, unless the config says
        `noToken`. */
    method TokenInterceptor(config: Config) returns (r: Result<()>)
      modifies this, customAxios, config
      ensures var p := Authorize(Unguarded, Who(), old(config.Value()), old(Session()), old(customAxios.net));
        && r == p.result && Session() == p.session && customAxios.net == p.net
        && config.Value() == (if r.Ok? then Authorized(old(config.Value()), accessToken) else old(config.Value()))
      decreases Rank(config.Value()), 1
    {
      if !config.noToken {
        if !IsTruthy(accessToken) {
          var token := Login();
          if token.Fail? {
            return Fail(token.error);
          }
          accessToken := token.value;
        }
        if config.headers.Some? {
          config.headers := Some(config.headers.value[TokenHeader := accessToken]);
        } else {
          config.headers := Some(map[TokenHeader := accessToken]);
        }
      }
      return Ok(());
    }

    /** `login(user, pass, axios)`: the token of the response body. Its
        request runs through the same instance, so a 401 on it resets the
        closure's token as well. */
    method Login() returns (r: Result<Option<Json>>)
      modifies this, customAxios
      ensures var l := AxiosAuth.Login(Unguarded, Who(), old(Session()), old(customAxios.net));
        && r == (if l.result.Ok? then Ok(l.result.value.token) else Fail(l.result.error))
        && Session() == l.session && customAxios.net == l.net
      decreases 2, 0
    {
      customAxios.Emit(LoggingIn);
      var config := new Config(Post, LoginPath, true, None, LoginBody(Who()));
      var res := Request(config);
      if res.Fail? {
        return Fail(LoginError(res.error));
      }
      customAxios.Emit(LoginSuccessful);
      var token := Prop(Some(res.value.data), "token");
      if token.Fail? {
        return Fail(token.error);
      }
      return Ok(token.value);
    }

    /** The response interceptor's error handler, which reads
        `error.response.status` without checking for a response. */
    method RetryOnUnauthorized(reply: Reply, config: Config) returns (r: Result<Reply>)
      requires !IsSuccess(reply)
      modifies this, customAxios, config
      ensures (Outcome(r, Session(), customAxios.net), config.Value()) == Recover(Unguarded, Who(), reply, old(config.Value()), old(Session()), old(customAxios.net))
      decreases Rank(config.Value()), 0
    {
      if reply.NoAnswer? {
        return Fail(StatusOfUndefined());
      }
      if reply.status == 401 && !config.isRetryRequest {
        config.isRetryRequest := true;
        accessToken := Some(JNull);
        customAxios.Emit(Info(RenewalNotice));
        r := Request(config);
        return;
      }
      return Fail(AxiosError(reply));
    }
  }
}
