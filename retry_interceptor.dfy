/** The 429 handler of lib/client/retryInterceptor.js: successful responses
    pass through, a "Too Many Requests" response (section 4 of RFC 6585)
    makes the client sleep five seconds and issue the same request again,
    with no limit on the number of rounds, and every other error is
    rejected as it came. The handler keeps no state. */
module RetryInterceptor {
  import opened Common
  import opened Http

  const BackoffSeconds: nat := 5

  predicate TooManyRequests(r: Reply) {
    r.Answer? && r.status == 429
  }

  /** `customAxios(config)` on an instance with the handler registered. */
  function Issue(request: Sent, net: Net): (r: (Result<Reply>, Net))
    decreases |net.script|
  {
    var (reply, afterSend) := Transmit(net, request);
    if IsSuccess(reply) then (Ok(reply), afterSend)
    else if TooManyRequests(reply) then Issue(request, Slept(afterSend, BackoffSeconds))
    else (Fail(ErrorOf(reply)), afterSend)
  }

  /** A successful first reply is handed back unchanged after one send. */
  lemma SuccessPassesThrough(request: Sent, net: Net)
    requires net.script != [] && IsSuccess(net.script[0])
    ensures Issue(request, net) == (Ok(net.script[0]), net.(script := net.script[1..], sent := net.sent + [request]))
  {
  }

  /** Any other first reply that is not 429, and a send that gets no
      response, is rejected unchanged after one send and no pause. */
  lemma OtherErrorsRejected(request: Sent, net: Net)
    requires !IsSuccess(NextReply(net.script)) && !TooManyRequests(NextReply(net.script))
    ensures Issue(request, net) == (Fail(ErrorOf(NextReply(net.script))), net.(script := Rest(net.script), sent := net.sent + [request]))
  {
  }

  /** `k` replies of 429 followed by a success cause `k` pauses of five
      seconds and `k + 1` sends of the same request, for every `k`: there is
      no retry cap. */
  lemma {:induction false} BackoffRounds(request: Sent, net: Net, tooMany: seq<Reply>, ok: Reply, rest: seq<Reply>)
    requires forall i :: 0 <= i < |tooMany| ==> TooManyRequests(tooMany[i])
    requires IsSuccess(ok) && net.script == tooMany + [ok] + rest
    ensures Issue(request, net) == (Ok(ok), Net(rest, net.sent + Copies(request, |tooMany| + 1), net.events,
                                              net.sleeps + Copies(BackoffSeconds * 1000, |tooMany|)))
    decreases |tooMany|
  {
    if tooMany == [] {
      assert net.script[0] == ok && net.script[1..] == rest;
      assert Copies(request, 1) == [request];
      assert net.sleeps + Copies(BackoffSeconds * 1000, 0) == net.sleeps;
    } else {
      var (reply, afterSend) := Transmit(net, request);
      assert reply == tooMany[0];
      var next := Slept(afterSend, BackoffSeconds);
      assert next.script == tooMany[1..] + [ok] + rest;
      BackoffRounds(request, next, tooMany[1..], ok, rest);
      assert net.sent + Copies(request, |tooMany| + 1) == net.sent + [request] + Copies(request, |tooMany|);
      assert net.sleeps + Copies(BackoffSeconds * 1000, |tooMany|) == net.sleeps + [5000] + Copies(BackoffSeconds * 1000, |tooMany| - 1);
    }
  }
}
