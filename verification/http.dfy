/**
 * The HTTP transport as an oracle, and the `req` wrapper that follows a
 * single 302 redirect.
 */
module Http {
  import opened Js

  /** How a request can fail: an HTTP error status (with the `location`
      header of the response) or any other failure of the request. */
  datatype TransportError =
    | HttpError(statusCode: int, location: string)
    | RequestError(reason: string)

  /** What the transport answers to one request. */
  datatype Response = Received(body: string) | Rejected(error: TransportError)

  /** One request handed to the transport. */
  datatype Call = Call(url: string, options: JsObject)

  /** The requests made, in order, and the response finally returned. */
  datatype Exchange = Exchange(calls: seq<Call>, response: Response)

  /** The transport: the response it gives to a URL and an options object. */
  type Transport = (string, JsObject) -> Response

  /** The error `req` treats as a redirect: an HTTP error with status 302. */
  predicate IsRedirect(r: Response): (b: bool)
    ensures b <==> exists location :: r == Rejected(HttpError(302, location))
  {
    r.Rejected? && r.error.HttpError? && r.error.statusCode == 302
  }

  /** Call `b` is the redirect `req` makes after call `a`: `a` was answered
      with a 302, and `b` goes to its location with the same options. */
  predicate Hop(send: Transport, a: Call, b: Call) {
    var answer := send(a.url, a.options);
    IsRedirect(answer) && b == Call(answer.error.location, a.options)
  }

  /** Every call after the first is the redirect of the call before it. */
  predicate FollowsChain(send: Transport, calls: seq<Call>) {
    |calls| <= 1 || (Hop(send, calls[0], calls[1]) && FollowsChain(send, calls[1..]))
  }

  /** `req(url, options)`: one request; on a 302, one more request to its
      location with the same options, whose outcome is returned as it is. */
  function Req(send: Transport, url: string, options: JsObject): (x: Exchange)
    ensures 1 <= |x.calls| <= 2 && x.calls[0] == Call(url, options)
    ensures |x.calls| == 2 <==> IsRedirect(send(url, options))
    ensures FollowsChain(send, x.calls)
    ensures var last := x.calls[|x.calls| - 1]; x.response == send(last.url, last.options)
  {
    var first := send(url, options);
    if IsRedirect(first) then
      var next := first.error.location;
      Exchange([Call(url, options), Call(next, options)], send(next, options))
    else
      Exchange([Call(url, options)], first)
  }

  /** A redirect policy with a budget: follow at most `hops` 302 answers. */
  function FollowRedirects(send: Transport, url: string, options: JsObject, hops: nat): (x: Exchange)
    ensures 1 <= |x.calls| <= hops + 1 && x.calls[0] == Call(url, options)
    ensures FollowsChain(send, x.calls)
    ensures var last := x.calls[|x.calls| - 1]; x.response == send(last.url, last.options)
    ensures IsRedirect(x.response) ==> |x.calls| == hops + 1
    decreases hops
  {
    var first := send(url, options);
    if IsRedirect(first) && hops > 0 then
      var rest := FollowRedirects(send, first.error.location, options, hops - 1);
      Exchange([Call(url, options)] + rest.calls, rest.response)
    else
      Exchange([Call(url, options)], first)
  }

  /** `req` is the redirect policy with a budget of exactly one hop. */
  lemma ReqFollowsOneHop(send: Transport, url: string, options: JsObject)
    ensures Req(send, url, options) == FollowRedirects(send, url, options, 1)
  {
  }

  /** Success or any error other than a 302: one call, and the transport's
      answer is passed through unchanged. */
  lemma ReqPassesThrough(send: Transport, url: string, options: JsObject)
    requires !IsRedirect(send(url, options))
    ensures Req(send, url, options) == Exchange([Call(url, options)], send(url, options))
  {
  }

  /** A second 302 is not followed: it surfaces as the result, after exactly
      two calls. */
  lemma ReqStopsAfterOneHop(send: Transport, url: string, options: JsObject)
    requires IsRedirect(send(url, options))
    requires IsRedirect(send(send(url, options).error.location, options))
    ensures var x := Req(send, url, options);
      && |x.calls| == 2
      && x.response == send(send(url, options).error.location, options)
      && IsRedirect(x.response)
  {
  }
}
