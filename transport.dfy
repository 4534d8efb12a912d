/** `ApiClient`: joins a path to the base URL, sends GET requests with the
    token header, re-sends a request the server rate-limited (HTTP 429) after
    the server's Retry-After delay, and raises on an error status.

    The network is a script: the replies the server will give, in order, one
    per request. A request sent when the script is exhausted is a request the
    transport could not complete (`NoResponse`). Sleeps are recorded, not
    taken. */
module Transport {
  import opened Types

  const ApiBase := "https://www.courtlistener.com/api/rest/v4"
  const RateLimited: StatusCode := 429
  /** Seconds to wait when a 429 response carries no Retry-After header. */
  const DefaultRetryAfter: nat := 60
  /** `get`'s default `max_retries`; no caller in the pipeline overrides it. */
  const DefaultMaxRetries := 3

  // ---------------------------------------------------------------------
  // The base URL and the request URL

  /** `str.rstrip("/")`. */
  function TrimTrailingSlashes(s: string): (r: string)
    ensures |r| <= |s| && r == s[..|r|]
    ensures r == [] || r[|r| - 1] != '/'
    ensures forall i :: |r| <= i < |s| ==> s[i] == '/'
  {
    if s != [] && s[|s| - 1] == '/' then TrimTrailingSlashes(s[..|s| - 1]) else s
  }

  /** A link that carries its own scheme, as the API's `next` links do. */
  predicate IsAbsolute(link: string) {
    (|link| >= 7 && link[..7] == "http://") || (|link| >= 8 && link[..8] == "https://")
  }

  /** The request URL as the source builds it: the base, then the path. */
  function JoinUrl(base: string, path: string): string {
    base + path
  }

  /** The request URL the pipeline needs: an absolute link is requested as it
      is, anything else is joined to the base. */
  function ResolveUrl(base: string, path: string): string {
    if IsAbsolute(path) then path else JoinUrl(base, path)
  }

  /** Joining never loses the base: the URL is the trimmed base followed by
      the path, and no slash of the base's tail survives. */
  lemma JoinedUrlShape(base: string, path: string)
    ensures var url := JoinUrl(TrimTrailingSlashes(base), path);
      |url| == |TrimTrailingSlashes(base)| + |path|
      && url[..|TrimTrailingSlashes(base)|] == TrimTrailingSlashes(base)
      && url[|TrimTrailingSlashes(base)|..] == path
      && (TrimTrailingSlashes(base) == [] || url[|TrimTrailingSlashes(base)| - 1] != '/')
  {
    var b := TrimTrailingSlashes(base);
    var url := JoinUrl(b, path);
    assert url[..|b|] == b;
    assert url[|b|..] == path;
  }

  /** As written, joining an absolute link to a non-empty base never yields
      the link: the request goes to a URL that is not the one the server gave. */
  lemma AbsoluteLinkMangled(base: string, link: string)
    requires base != [] && IsAbsolute(link)
    ensures JoinUrl(base, link) != link
  {
    assert |JoinUrl(base, link)| > |link|;
  }

  /** The API's own second-page link, joined as written. */
  lemma NextLinkMangledExample()
    ensures var link := "https://www.courtlistener.com/api/rest/v4/search/?page=2";
      JoinUrl(TrimTrailingSlashes(ApiBase), link) == ApiBase + link != link
  {
    assert TrimTrailingSlashes(ApiBase) == ApiBase;
  }

  /** Resolution follows an absolute link verbatim and agrees with the source's
      join on every other path. */
  lemma ResolveUrlCorrect(base: string, path: string)
    ensures IsAbsolute(path) ==> ResolveUrl(base, path) == path
    ensures !IsAbsolute(path) ==> ResolveUrl(base, path) == JoinUrl(base, path)
    ensures base != [] ==> (ResolveUrl(base, path) == path <==> IsAbsolute(path))
  {
  }

  // ---------------------------------------------------------------------
  // The retry loop as a function of the script

  /** `raise_for_status`: a 4xx or 5xx status raises, any other passes. */
  function RaiseForStatus(resp: Response): (r: Result<Response>)
    ensures r.Err? <==> resp.status >= 400
  {
    if resp.status >= 400 then Err(HttpError(resp.status)) else Ok(resp)
  }

  function WaitFor(resp: Response): nat {
    resp.retryAfter.GetOr(DefaultRetryAfter)
  }

  /** The waits taken before re-sending after each of `replies`. */
  function Waits(replies: seq<Response>): (w: seq<nat>)
    ensures |w| == |replies|
  {
    seq(|replies|, i requires 0 <= i < |replies| => WaitFor(replies[i]))
  }

  /** What one `get` amounts to: its result, how many replies of the script
      it consumed (one per request answered) and the waits it slept. */
  datatype Exchange = Exchange(result: Result<Response>, attempts: nat, waits: seq<nat>)

  /** The requests one `get` sent: one per reply consumed, and one more when
      the last request got no reply and `requests.get` raised. */
  function RequestsSent(e: Exchange): nat {
    if e.result == Err(NoResponse) then e.attempts + 1 else e.attempts
  }

  /** The retry loop run against `script`, `retries` re-sends already made. */
  function Transact(script: seq<Response>, retries: int, maxRetries: int): (e: Exchange)
    ensures e.attempts <= |script|
    ensures e.result != Err(NoResponse) ==> 1 <= e.attempts
    decreases |script|
  {
    if script == [] then Exchange(Err(NoResponse), 0, [])
    else if script[0].status == RateLimited && retries < maxRetries then
      var rest := Transact(script[1..], retries + 1, maxRetries);
      Exchange(rest.result, rest.attempts + 1, [WaitFor(script[0])] + rest.waits)
    else Exchange(RaiseForStatus(script[0]), 1, [])
  }

  /** Re-sends still allowed after `retries` of `maxRetries`. */
  function Budget(retries: int, maxRetries: int): nat {
    if maxRetries - retries > 0 then maxRetries - retries else 0
  }

  /** The whole behaviour of the retry loop: only 429 replies are retried, each
      after its own Retry-After (or 60 seconds); the loop stops at the first
      reply that is not a 429 or when the retry budget is spent, and that last
      reply decides the result through `raise_for_status`. */
  lemma {:induction false} TransactShape(script: seq<Response>, retries: int, maxRetries: int)
    ensures var e := Transact(script, retries, maxRetries);
      && |e.waits| <= Budget(retries, maxRetries)
      && |e.waits| <= |script|
      && (forall i :: 0 <= i < |e.waits| ==>
            script[i].status == RateLimited && e.waits[i] == WaitFor(script[i]))
      && (e.result == Err(NoResponse) ==> e.attempts == |e.waits| == |script|)
      && (e.result != Err(NoResponse) ==>
            && e.attempts == |e.waits| + 1
            && e.result == RaiseForStatus(script[|e.waits|])
            && (script[|e.waits|].status != RateLimited || |e.waits| == Budget(retries, maxRetries)))
    decreases |script|
  {
    if script != [] && script[0].status == RateLimited && retries < maxRetries {
      TransactShape(script[1..], retries + 1, maxRetries);
    }
  }

  /** At most `max_retries + 1` requests, the one that got no reply included. */
  lemma AttemptsBounded(script: seq<Response>, maxRetries: int)
    ensures RequestsSent(Transact(script, 0, maxRetries)) <= Budget(0, maxRetries) + 1
  {
    TransactShape(script, 0, maxRetries);
  }

  /** `get` returns the first reply that is not a 429, provided it comes
      within the retry budget, passed through `raise_for_status`. */
  lemma FirstOtherReplyDecides(script: seq<Response>, maxRetries: int, k: nat)
    requires k < |script| && k <= Budget(0, maxRetries)
    requires forall i :: 0 <= i < k ==> script[i].status == RateLimited
    requires script[k].status != RateLimited
    ensures Transact(script, 0, maxRetries) == Exchange(RaiseForStatus(script[k]), k + 1, Waits(script[..k]))
  {
    var e := Transact(script, 0, maxRetries);
    TransactShape(script, 0, maxRetries);
    assert e.result != Err(NoResponse);
    assert |e.waits| == k;
    assert e.waits == Waits(script[..k]);
  }

  /** When every reply within the budget is a 429, `get` gives up after
      `max_retries + 1` requests and raises on that last 429. */
  lemma RateLimitSurfaces(script: seq<Response>, maxRetries: int)
    requires Budget(0, maxRetries) < |script|
    requires forall i :: 0 <= i <= Budget(0, maxRetries) ==> script[i].status == RateLimited
    ensures var e := Transact(script, 0, maxRetries);
      e.result == Err(HttpError(RateLimited))
      && e.attempts == Budget(0, maxRetries) + 1
      && e.waits == Waits(script[..Budget(0, maxRetries)])
  {
    var e := Transact(script, 0, maxRetries);
    TransactShape(script, 0, maxRetries);
    assert e.result != Err(NoResponse);
    assert |e.waits| == Budget(0, maxRetries);
    assert e.waits == Waits(script[..Budget(0, maxRetries)]);
  }

  /** A first reply that is not a 429 (a 5xx included) is never retried. */
  lemma OtherStatusNotRetried(script: seq<Response>, maxRetries: int)
    requires script != [] && script[0].status != RateLimited
    ensures Transact(script, 0, maxRetries) == Exchange(RaiseForStatus(script[0]), 1, [])
  {
  }

  /** One 429 with `Retry-After: 0`, then a 200: two requests, one zero wait,
      and the 200 is returned. */
  lemma RetryThenSuccess(body: Json)
    ensures var ok := Response(200, None, body);
      Transact([Response(429, Some(0), body), ok], 0, DefaultMaxRetries) == Exchange(Ok(ok), 2, [0])
  {
  }

  // ---------------------------------------------------------------------
  // The client

  function Repeat<T>(x: T, n: nat): seq<T> {
    seq(n, _ => x)
  }

  /** `e` preceded by the re-sends made after each of `replies`. */
  function Prefixed(replies: seq<Response>, e: Exchange): Exchange {
    Exchange(e.result, e.attempts + |replies|, Waits(replies) + e.waits)
  }

  class ApiClient {
    const baseUrl: string
    const authorization: string
    /** Replies the server has yet to give. */
    var network: seq<Response>
    /** Every request sent, in order. */
    var sent: seq<Request>
    /** Every invocation of `Get`, in order. */
    var calls: seq<Call>
    /** Every sleep taken, in seconds. */
    var sleeps: seq<nat>

    constructor (base: string, token: string, network: seq<Response>)
      ensures baseUrl == TrimTrailingSlashes(base) && authorization == "Token " + token
      ensures this.network == network && sent == [] && calls == [] && sleeps == []
    {
      baseUrl := TrimTrailingSlashes(base);
      authorization := "Token " + token;
      this.network := network;
      sent, calls, sleeps := [], [], [];
    }

    /** The effect of one `Get` of `call` that returned `r`: the result and
        the consumed replies are those of `Transact`, each request sent (the
        one that got no reply included) went to the base URL followed by the
        call's path, with the call's parameters and the token header, and the
        waits were slept. */
    twostate predicate Answered(call: Call, maxRetries: int, new r: Result<Response>)
      reads this
    {
      var e := Transact(old(network), 0, maxRetries);
      && r == e.result
      && network == old(network)[e.attempts..]
      && sent == old(sent) + Repeat(Request(JoinUrl(baseUrl, call.path), call.params, authorization), RequestsSent(e))
      && sleeps == old(sleeps) + e.waits
      && calls == old(calls) + [call]
    }

    method Get(path: string, params: Params, maxRetries: int) returns (r: Result<Response>)
      modifies this
      ensures Answered(Call(path, params), maxRetries, r)
    {
      var url := JoinUrl(baseUrl, path);
      var request := Request(url, params, authorization);
      var retries := 0;
      var remaining := network;
      var slept: seq<nat> := [];
      ghost var consumed: seq<Response> := [];
      ghost var whole := Transact(network, 0, maxRetries);
      var resp: Response;
      while true
        invariant unchanged(this)
        invariant network == consumed + remaining
        invariant retries == |consumed| && slept == Waits(consumed)
        invariant whole == Prefixed(consumed, Transact(remaining, retries, maxRetries))
        decreases |remaining|
      {
        if remaining == [] {
          NoReplyStep(consumed, retries, maxRetries);
          assert network == consumed + [];
          Record(Call(path, params), request, retries + 1, slept, remaining);
          r := Err(NoResponse);
          return;
        }
        resp := remaining[0];
        var rest := remaining[1..];
        assert remaining == [resp] + rest;
        if resp.status == RateLimited && retries < maxRetries {
          var wait := resp.retryAfter.GetOr(DefaultRetryAfter);
          RetryStep(consumed, resp, rest, retries, maxRetries);
          slept := slept + [wait];
          retries := retries + 1;
          consumed := consumed + [resp];
          remaining := rest;
          continue;
        }
        StopStep(consumed, resp, rest, retries, maxRetries);
        Record(Call(path, params), request, retries + 1, slept, rest);
        break;
      }
      r := RaiseForStatus(resp);
    }

    /** Logs what one `get` did: its call, the `attempts` requests it sent,
        the sleeps it took, and the replies it left. */
    method Record(call: Call, request: Request, attempts: nat, slept: seq<nat>, left: seq<Response>)
      modifies this
      ensures network == left && sent == old(sent) + Repeat(request, attempts)
      ensures sleeps == old(sleeps) + slept && calls == old(calls) + [call]
    {
      network := left;
      sent := sent + Repeat(request, attempts);
      sleeps := sleeps + slept;
      calls := calls + [call];
    }
  }

  /** The script ran out: the exchange ends with the re-sends made so far. */
  lemma NoReplyStep(consumed: seq<Response>, retries: int, maxRetries: int)
    ensures Prefixed(consumed, Transact([], retries, maxRetries)) == Exchange(Err(NoResponse), |consumed|, Waits(consumed))
    ensures (consumed + [])[|consumed|..] == []
  {
    assert Waits(consumed) + [] == Waits(consumed);
  }

  /** A reply that is not re-sent ends the exchange. */
  lemma StopStep(consumed: seq<Response>, resp: Response, rest: seq<Response>, retries: int, maxRetries: int)
    requires !(resp.status == RateLimited && retries < maxRetries)
    ensures Prefixed(consumed, Transact([resp] + rest, retries, maxRetries))
         == Exchange(RaiseForStatus(resp), |consumed| + 1, Waits(consumed))
    ensures (consumed + ([resp] + rest))[|consumed| + 1..] == rest
  {
    assert ([resp] + rest)[0] == resp;
    assert Waits(consumed) + [] == Waits(consumed);
    assert (consumed + ([resp] + rest))[|consumed| + 1..] == rest;
  }

  /** One re-send, seen from the whole exchange: the 429 reply moves from the
      remaining script into the consumed prefix. */
  lemma RetryStep(consumed: seq<Response>, resp: Response, rest: seq<Response>, retries: int, maxRetries: int)
    requires resp.status == RateLimited && retries < maxRetries
    ensures Prefixed(consumed, Transact([resp] + rest, retries, maxRetries))
         == Prefixed(consumed + [resp], Transact(rest, retries + 1, maxRetries))
    ensures Waits(consumed + [resp]) == Waits(consumed) + [WaitFor(resp)]
  {
    assert ([resp] + rest)[1..] == rest;
    assert Waits(consumed + [resp]) == Waits(consumed) + [WaitFor(resp)];
  }
}
