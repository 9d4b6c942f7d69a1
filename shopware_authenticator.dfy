/** `ShopwareAuthenticator` (lib/client/shopwareAuthenticator.js): an object
    that logs in to the Shopware community store, keeps the access token and
    user id in its fields, and registers on an axios instance a request
    interceptor that adds the token and a response interceptor that renews
    it once on a 401. The instance and its interceptors are modelled by
    `Request`, which runs them in axios's order. */
module ShopwareAuthenticator {
  import opened Common
  import opened Http
  import opened AxiosAuth

  class Authenticator {
    var accessToken: Option<Json>
    var userId: Option<Json>
    const username: Option<string>
    const password: Option<string>
    const axios: Remote

    function Session(): AxiosAuth.Session
      reads this
    {
      AxiosAuth.Session(accessToken, userId)
    }

    function Who(): Credentials {
      Credentials(username, password)
    }

    /** A fresh authenticator holds neither a token nor a user id. */
    constructor (username: Option<string>, password: Option<string>, axios: Remote)
      ensures Session() == Initial(Guarded) && accessToken.None? && userId.None?
      ensures this.username == username && this.password == password && this.axios == axios
    {
      accessToken, userId := None, None;
      this.username, this.password, this.axios := username, password, axios;
    }

    /** `this.axios(config)` with both interceptors registered. */
    method Request(config: Config) returns (r: Result<Reply>)
      modifies this, axios, config
      ensures (Outcome(r, Session(), axios.net), config.Value()) == AxiosAuth.Request(Guarded, Who(), old(config.Value()), old(Session()), old(axios.net))
      decreases Rank(config.Value()), 2
    {
      var authorized := AccessTokenInterceptor(config);
      if authorized.Fail? {
        return Fail(Rejected(Guarded, authorized.error));
      }
      var reply := axios.Send(SentOf(config.Value()));
      if IsSuccess(reply) {
        return Ok(reply);
      }
      r := RenewalInterceptor(reply, config);
    }

    /** The request interceptor: log in when no truthy token is stored, then
        set `X-Shopware-Token`, unless the config says `noToken`. */
    method AccessTokenInterceptor(config: Config) returns (r: Result<()>)
      modifies this, axios, config
      ensures var p := Authorize(Guarded, Who(), old(config.Value()), old(Session()), old(axios.net));
        && r == p.result && Session() == p.session && axios.net == p.net
        && config.Value() == (if r.Ok? then Authorized(old(config.Value()), accessToken) else old(config.Value()))
      decreases Rank(config.Value()), 1
    {
      if !config.noToken {
        if !IsTruthy(accessToken) {
          var loggedIn := Login();
          if loggedIn.Fail? {
            return Fail(loggedIn.error);
          }
        }
        if config.headers.Some? {
          config.headers := Some(config.headers.value[TokenHeader := accessToken]);
        } else {
          config.headers := Some(map[TokenHeader := accessToken]);
        }
      }
      return Ok(());
    }

    /** `login()`: exchange the credentials for a token and keep it, with the
        user id, in the fields. */
    method Login() returns (r: Result<()>)
      modifies this, axios
      ensures var l := AxiosAuth.Login(Guarded, Who(), old(Session()), old(axios.net));
        && r == (if l.result.Ok? then Ok(()) else Fail(l.result.error))
        && Session() == (if l.result.Ok? then Stored(Guarded, l.session, l.result.value) else l.session)
        && axios.net == l.net
      decreases 2, 0
    {
      axios.Emit(LoggingIn);
      var config := new Config(Post, LoginPath, true, None, LoginBody(Who()));
      var res := Request(config);
      if res.Fail? {
        return Fail(LoginError(res.error));
      }
      axios.Emit(LoginSuccessful);
      var body := Some(res.value.data);
      var token := Prop(body, "token");
      if token.Fail? {
        return Fail(token.error);
      }
      accessToken := token.value;
      userId := Prop(body, "userId").value;
      return Ok(());
    }

    /** The response interceptor's error handler. */
    method RenewalInterceptor(reply: Reply, config: Config) returns (r: Result<Reply>)
      requires !IsSuccess(reply)
      modifies this, axios, config
      ensures (Outcome(r, Session(), axios.net), config.Value()) == Recover(Guarded, Who(), reply, old(config.Value()), old(Session()), old(axios.net))
      decreases Rank(config.Value()), 0
    {
      if reply.Answer? && reply.status == 401 && !config.isRetryRequest {
        config.isRetryRequest := true;
        accessToken := None;
        axios.Emit(Info(RenewalNotice));
        r := Request(config);
        return;
      }
      return Fail(AxiosError(reply));
    }
  }
}
