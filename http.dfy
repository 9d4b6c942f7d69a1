/** The remote side of every client in the model: the Shopware store API as
    a scripted sequence of replies, consumed one per physical send, together
    with what the client observably did (the requests it sent, the events it
    emitted and the pauses it slept). Transport libraries are not modelled;
    only the reply each send receives. */
module Http {
  import opened Common

  datatype Verb = Get | Post | Put | Delete

  /** One physical request: its verb, path, headers (None when the config
      has no `headers` object), body, and the file attached to a multipart
      upload, if any. */
  datatype Sent = Sent(verb: Verb, path: string, headers: Option<map<string, Option<Json>>>, data: Json, file: Option<string>)

  /** What a send receives: a response (its status, whether superagent
      flags it `unauthorized`, its body and the library's error message for
      it), or no response at all. An axios response carries no such flag;
      the axios clients ignore it. */
  datatype Reply =
    | Answer(status: int, unauthorized: bool, data: Json, message: string)
    | NoAnswer(message: string)

  /** A reply the transport resolves with rather than rejecting. */
  predicate IsSuccess(r: Reply) {
    r.Answer? && 200 <= r.status < 300
  }

  /** The error a transport rejects with for a reply that is not a success:
      it keeps the response when there is one. */
  function ErrorOf(r: Reply): (e: Error)
    ensures r.Answer? ==> e == HttpError(r.status, r.unauthorized, r.message)
    ensures r.NoAnswer? ==> e == NetworkError(r.message)
  {
    match r
    case Answer(status, unauthorized, _, message) => HttpError(status, unauthorized, message)
    case NoAnswer(message) => NetworkError(message)
  }

  datatype Event = LoggingIn | LoginSuccessful | Info(message: string)

  /** The remote and the client's observable trace. */
  datatype Net = Net(script: seq<Reply>, sent: seq<Sent>, events: seq<Event>, sleeps: seq<nat>)

  /** The reply the next send receives; a remote whose script is used up
      no longer answers. */
  function NextReply(script: seq<Reply>): Reply {
    if script == [] then NoAnswer("no reply") else script[0]
  }

  function Rest(script: seq<Reply>): seq<Reply> {
    if script == [] then [] else script[1..]
  }

  /** Sending `s`: it is logged and the next reply is consumed. */
  function Transmit(net: Net, s: Sent): (r: (Reply, Net))
    ensures r.1.sent == net.sent + [s] && r.1.events == net.events && r.1.sleeps == net.sleeps
    ensures net.script != [] ==> r.0 == net.script[0] && r.1.script == net.script[1..]
    ensures net.script == [] ==> r.0.NoAnswer? && r.1.script == []
  {
    (NextReply(net.script), net.(script := Rest(net.script), sent := net.sent + [s]))
  }

  function Emitted(net: Net, e: Event): (r: Net)
    ensures r.events == net.events + [e] && r.script == net.script && r.sent == net.sent && r.sleeps == net.sleeps
  {
    net.(events := net.events + [e])
  }

  /** `sleep(seconds)`: a pause of `seconds * 1000` milliseconds, logged. */
  function Slept(net: Net, seconds: nat): (r: Net)
    ensures r.sleeps == net.sleeps + [seconds * 1000] && r.script == net.script && r.sent == net.sent && r.events == net.events
  {
    net.(sleeps := net.sleeps + [seconds * 1000])
  }

  /** A pause of `ms` milliseconds, logged. */
  function Paused(net: Net, ms: nat): (r: Net)
    ensures r.sleeps == net.sleeps + [ms] && r.script == net.script && r.sent == net.sent && r.events == net.events
  {
    net.(sleeps := net.sleeps + [ms])
  }

  /** The remote as an object the clients send through. */
  class Remote {
    var net: Net

    constructor (script: seq<Reply>)
      ensures net == Net(script, [], [], [])
    {
      net := Net(script, [], [], []);
    }

    method Send(s: Sent) returns (reply: Reply)
      modifies this
      ensures (reply, net) == Transmit(old(net), s)
    {
      reply := NextReply(net.script);
      net := net.(script := Rest(net.script), sent := net.sent + [s]);
    }

    method Emit(e: Event)
      modifies this
      ensures net == Emitted(old(net), e)
    {
      net := net.(events := net.events + [e]);
    }

    method Sleep(seconds: nat)
      modifies this
      ensures net == Slept(old(net), seconds)
    {
      net := net.(sleeps := net.sleeps + [seconds * 1000]);
    }

    method Pause(ms: nat)
      modifies this
      ensures net == Paused(old(net), ms)
    {
      net := net.(sleeps := net.sleeps + [ms]);
    }
  }
}
