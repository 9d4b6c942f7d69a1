/** The older superagent-based `ShopwareStoreClient`
    (lib/shopware_store_client.js): every verb first obtains an access token,
    logging in once when none is stored, then sends the request with the
    `X-Shopware-Token` header. Errors go through `errorHandler`, which turns
    an unauthorized response into "Login failed: <message>". Nothing ever
    clears the stored token, so an expired token is not renewed. */
module ShopwareStoreClient {
  import opened Common
  import opened Http

  const TokenHeader := "X-Shopware-Token"
  const LoginPath := "accesstokens"

  /** What `login` stores. */
  datatype Account = Account(token: Option<Json>, userId: Option<Json>)

  /** `errorHandler()`'s callback: an error whose response is flagged
      unauthorized (superagent's `res.unauthorized`) becomes a login
      failure, every other error is rethrown unchanged. */
  function ErrorHandler(e: Error): (r: Error)
    ensures e.HttpError? && e.unauthorized ==> r == LoginFailed(e.message)
    ensures !(e.HttpError? && e.unauthorized) ==> r == e
  {
    if e.HttpError? && e.unauthorized then LoginFailed(e.message) else e
  }

  /** `getPassword()`: the password given to the constructor when it is
      truthy, otherwise what the prompt answers. */
  function Password(given: Option<string>, prompted: string): (r: string)
    ensures Present(given) ==> r == given.value
    ensures !Present(given) ==> r == prompted
  {
    if Present(given) then given.value else prompted
  }

  /** The login request: a POST of `{shopwareId, password}` without a token;
      an `undefined` username is dropped from the body. */
  function LoginRequest(username: Option<string>, password: string): Sent {
    var body: map<string, Json> := map["password" := JStr(password)];
    Sent(Post, LoginPath, None, JObj(if username.Some? then body["shopwareId" := JStr(username.value)] else body), None)
  }

  /** The steps after the login request: read `userId` and `token` from the
      response body, or pass the error through the handler. */
  function LoggedIn(reply: Reply): (r: Result<Account>)
    ensures IsSuccess(reply) && reply.data.JObj? ==> r.Ok?
    ensures !IsSuccess(reply) ==> r == Fail(ErrorHandler(ErrorOf(reply)))
  {
    if !IsSuccess(reply) then Fail(ErrorHandler(ErrorOf(reply)))
    else
      var body := Some(reply.data);
      var userId :- Prop(body, "userId");
      var token := Prop(body, "token").value;
      Ok(Account(token, userId))
  }

  /** `getAccessToken()`: the token handed to the request, the account
      afterwards and the remote afterwards. */
  function AccessToken(a: Account, username: Option<string>, password: Option<string>, prompted: string, net: Net): (r: (Result<Option<Json>>, Account, Net))
    ensures IsTruthy(a.token) ==> r == (Ok(a.token), a, net)
    ensures r.0.Ok? ==> r.0.value == r.1.token
    ensures r.2.sleeps == net.sleeps && r.2.events == net.events
  {
    if IsTruthy(a.token) then (Ok(a.token), a, net)
    else
      var (reply, n) := Transmit(net, LoginRequest(username, Password(password, prompted)));
      match LoggedIn(reply)
      case Fail(e) => (Fail(e), a, n)
      case Ok(stored) => (Ok(stored.token), stored, n)
  }

  /** The request a verb sends once it holds `token`. */
  function Authorized(verb: Verb, path: string, data: Json, file: Option<string>, token: Option<Json>): Sent {
    Sent(verb, path, Some(map[TokenHeader := token]), data, file)
  }

  /** A verb: obtain a token, send, and pass any error through the handler
      (a login error passes it twice, which changes nothing). */
  function Call(a: Account, username: Option<string>, password: Option<string>, prompted: string, net: Net,
                verb: Verb, path: string, data: Json, file: Option<string>): (r: (Result<Reply>, Account, Net))
  {
    var (token, stored, n) := AccessToken(a, username, password, prompted, net);
    if token.Fail? then (Fail(ErrorHandler(token.error)), stored, n)
    else
      var (reply, sent) := Transmit(n, Authorized(verb, path, data, file, token.value));
      (if IsSuccess(reply) then Ok(reply) else Fail(ErrorHandler(ErrorOf(reply))), stored, sent)
  }

  /** `queryParams || {}`: the body a GET carries here is its query
      parameters when they are truthy, and `{}` otherwise. */
  function QueryOf(queryParams: Option<Json>): (q: Json)
    ensures Truthy(q)
    ensures IsTruthy(queryParams) ==> q == queryParams.value
  {
    if IsTruthy(queryParams) then queryParams.value else JObj(map[])
  }

  class Client {
    var token: Option<Json>
    var userId: Option<Json>
    const username: Option<string>
    const password: Option<string>
    const remote: Remote

    function State(): Account
      reads this
    {
      Account(token, userId)
    }

    constructor (username: Option<string>, password: Option<string>, remote: Remote)
      ensures token.None? && userId.None?
      ensures this.username == username && this.password == password && this.remote == remote
    {
      token, userId := None, None;
      this.username, this.password, this.remote := username, password, remote;
    }

    /** `getPassword()`, with the prompt's answer as a parameter. */
    method GetPassword(prompted: string) returns (r: string)
      ensures r == Password(password, prompted)
    {
      if password.Some? && password.value != "" {
        return password.value;
      }
      return prompted;
    }

    /** `login()`: one POST to `accesstokens`; a successful body's `userId`
        and `token` are stored, and nothing is stored on an error. */
    method Login(prompted: string) returns (r: Result<()>)
      modifies this, remote
      ensures var (reply, n) := Transmit(old(remote.net), LoginRequest(username, Password(password, prompted)));
        && remote.net == n
        && var l := LoggedIn(reply);
        && r == (if l.Ok? then Ok(()) else Fail(l.error))
        && State() == (if l.Ok? then l.value else old(State()))
    {
      var pass := GetPassword(prompted);
      var reply := remote.Send(LoginRequest(username, pass));
      if !IsSuccess(reply) {
        return Fail(ErrorHandler(ErrorOf(reply)));
      }
      var body := Some(reply.data);
      var readUserId := Prop(body, "userId");
      if readUserId.Fail? {
        return Fail(readUserId.error);
      }
      userId := readUserId.value;
      token := Prop(body, "token").value;
      return Ok(());
    }

    /** `getAccessToken()`: the stored token when it is truthy, otherwise
        the one stored by a fresh login. */
    method GetAccessToken(prompted: string) returns (r: Result<Option<Json>>)
      modifies this, remote
      ensures (r, State(), remote.net) == AccessToken(old(State()), username, password, prompted, old(remote.net))
    {
      if IsTruthy(token) {
        return Ok(token);
      }
      var loggedIn := Login(prompted);
      if loggedIn.Fail? {
        return Fail(loggedIn.error);
      }
      return Ok(token);
    }

    /** The shared shape of the four verbs. */
    method Dispatch(verb: Verb, path: string, data: Json, file: Option<string>, prompted: string) returns (r: Result<Reply>)
      modifies this, remote
      ensures (r, State(), remote.net) == Call(old(State()), username, password, prompted, old(remote.net), verb, path, data, file)
    {
      var t := GetAccessToken(prompted);
      if t.Fail? {
        return Fail(ErrorHandler(t.error));
      }
      var reply := remote.Send(Authorized(verb, path, data, file, t.value));
      if IsSuccess(reply) {
        return Ok(reply);
      }
      return Fail(ErrorHandler(ErrorOf(reply)));
    }

    method Get(path: string, queryParams: Option<Json>, prompted: string) returns (r: Result<Reply>)
      modifies this, remote
      ensures (r, State(), remote.net) == Call(old(State()), username, password, prompted, old(remote.net), Http.Get, path, QueryOf(queryParams), None)
    {
      r := Dispatch(Http.Get, path, QueryOf(queryParams), None, prompted);
    }

    /** `POST(path, params, filePath)`: the file is attached only when the
        path is truthy. */
    method Post(path: string, params: Json, filePath: Option<string>, prompted: string) returns (r: Result<Reply>)
      modifies this, remote
      ensures (r, State(), remote.net) == Call(old(State()), username, password, prompted, old(remote.net), Http.Post, path, params, if Present(filePath) then filePath else None)
    {
      r := Dispatch(Http.Post, path, params, if Present(filePath) then filePath else None, prompted);
    }

    method Put(path: string, params: Json, prompted: string) returns (r: Result<Reply>)
      modifies this, remote
      ensures (r, State(), remote.net) == Call(old(State()), username, password, prompted, old(remote.net), Http.Put, path, params, None)
    {
      r := Dispatch(Http.Put, path, params, None, prompted);
    }

    /** `DELETE(path)`, which sends no body. */
    method Delete(path: string, prompted: string) returns (r: Result<Reply>)
      modifies this, remote
      ensures (r, State(), remote.net) == Call(old(State()), username, password, prompted, old(remote.net), Http.Delete, path, JNull, None)
    {
      r := Dispatch(Http.Delete, path, JNull, None, prompted);
    }
  }

  // ----- what the client promises -------------------------------------------------

  /** Handling an error twice is handling it once. */
  lemma ErrorHandlerIdempotent(e: Error)
    ensures ErrorHandler(ErrorHandler(e)) == ErrorHandler(e)
  {
  }

  /** Once a truthy token is stored, no call logs in, and no call changes
      the account, whatever the reply: a 401 on an expired token surfaces
      as "Login failed" and the same token is sent next time. */
  lemma TokenNeverCleared(a: Account, username: Option<string>, password: Option<string>, prompted: string, net: Net,
                          verb: Verb, path: string, data: Json, file: Option<string>)
    requires IsTruthy(a.token)
    ensures var (r, stored, n) := Call(a, username, password, prompted, net, verb, path, data, file);
      && stored == a
      && n.sent == net.sent + [Authorized(verb, path, data, file, a.token)]
      && (!IsSuccess(NextReply(net.script)) && NextReply(net.script).Answer? && NextReply(net.script).unauthorized ==> r == Fail(LoginFailed(NextReply(net.script).message)))
  {
  }

  /** Without a truthy token, a call logs in first: the login request and
      then the request carrying the token the login stored, which becomes
      the account's. */
  lemma FirstCallLogsIn(a: Account, username: Option<string>, password: Option<string>, prompted: string, net: Net,
                        verb: Verb, path: string, data: Json, file: Option<string>)
    requires !IsTruthy(a.token)
    requires net.script != [] && IsSuccess(net.script[0]) && net.script[0].data.JObj?
    ensures var body := net.script[0].data.props;
      var stored := Account(if "token" in body then Some(body["token"]) else None, if "userId" in body then Some(body["userId"]) else None);
      var (r, after, n) := Call(a, username, password, prompted, net, verb, path, data, file);
      && after == stored
      && n.sent == net.sent + [LoginRequest(username, Password(password, prompted)), Authorized(verb, path, data, file, stored.token)]
  {
  }

  /** A failed login stores nothing and sends nothing else: the call is
      rejected with the login's error, mapped by the handler. */
  lemma FailedLoginStoresNothing(a: Account, username: Option<string>, password: Option<string>, prompted: string, net: Net,
                                 verb: Verb, path: string, data: Json, file: Option<string>)
    requires !IsTruthy(a.token) && !IsSuccess(NextReply(net.script))
    ensures var (r, after, n) := Call(a, username, password, prompted, net, verb, path, data, file);
      && after == a && |n.sent| == |net.sent| + 1
      && r == Fail(ErrorHandler(ErrorOf(NextReply(net.script))))
  {
  }
}
