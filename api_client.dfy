/**
 * The frontend HTTP client and its response interceptor: a 401 from a
 * non-auth endpoint triggers one silent `POST /auth/refresh` and one replay
 * of the original request; a failed refresh sends the browser to /login.
 *
 * The network is abstracted as `answer`: what the n-th call the client puts
 * on the wire gets back (a status, or no response at all). A settled request
 * names the call whose response or error it carries, so "rejected unchanged"
 * means "rejected with that same call's error".
 */
module ApiClient {
  import opened Wrappers
  import opened JsStrings

  datatype Answer = Answered(status: int) | NoResponse

  /** axios resolves 2xx answers and rejects everything else. */
  predicate IsSuccess(a: Answer) {
    a.Answered? && 200 <= a.status < 300
  }

  /** `error.response?.status`. */
  function StatusOf(a: Answer): Option<int> {
    if a.Answered? then Some(a.status) else None
  }

  /** A call put on the wire. */
  datatype Call = Call(verb: string, url: Option<string>)

  /** How a request's promise settles, and with which call's response or error. */
  datatype Settled = Resolved(call: nat, status: int) | Rejected(call: nat, errorStatus: Option<int>)

  /** The promise of call `n` when no interceptor step intervenes. */
  function Settle(n: nat, a: Answer): Settled {
    if IsSuccess(a) then Resolved(n, a.status) else Rejected(n, StatusOf(a))
  }

  const RefreshUrl: string := "/auth/refresh"
  const LoginPage: string := "/login"

  /** `originalRequest.url?.includes('/auth/')`. */
  predicate IsAuthEndpoint(url: Option<string>) {
    url.Some? && Includes(url.value, "/auth/")
  }

  /** Lines 33-36: the only case the interceptor refreshes in. */
  predicate TriggersRefresh(status: Option<int>, retry: bool, url: Option<string>) {
    status == Some(401) && !retry && !IsAuthEndpoint(url)
  }

  /** The refresh call can never itself trigger a refresh. */
  lemma RefreshIsAuthEndpoint(status: Option<int>, retry: bool)
    ensures IsAuthEndpoint(Some(RefreshUrl))
    ensures !TriggersRefresh(status, retry, Some(RefreshUrl))
  {
    assert StartsWith(RefreshUrl, "/auth/");
  }

  /** An axios request config; `_retry` is the guard the interceptor sets. */
  class RequestConfig {
    const verb: string
    const url: Option<string>
    var retry: bool

    constructor (verb: string, url: Option<string>)
      ensures this.verb == verb && this.url == url && !retry
    {
      this.verb := verb;
      this.url := url;
      retry := false;
    }
  }

  function Measure(req: RequestConfig): nat
    reads req
  {
    if req.retry || IsAuthEndpoint(req.url) then 0 else 1
  }

  class Client {
    const answer: nat -> Answer
    var calls: seq<Call>       // every call put on the wire, in order
    var location: string       // window.location.href

    constructor (answer: nat -> Answer, location: string)
      ensures this.answer == answer && this.location == location && calls == []
    {
      this.answer := answer;
      this.location := location;
      calls := [];
    }

    /**
     * `api(config)`: one call on the wire, then the response interceptor.
     * A request makes at most three calls (itself, the refresh, the replay),
     * and only a fresh 401 from a non-auth endpoint makes more than one.
     */
    method Send(req: RequestConfig) returns (s: Settled)
      modifies this, req
      decreases Measure(req), 1
      ensures location == old(location) || location == LoginPage
      ensures
        var n := |old(calls)|;
        var a := answer(n);
        var first := Call(req.verb, req.url);
        if !TriggersRefresh(StatusOf(a), old(req.retry), req.url) || IsSuccess(a) then
          calls == old(calls) + [first] && s == Settle(n, a) &&
          location == old(location) && req.retry == old(req.retry)
        else if IsSuccess(answer(n + 1)) then
          calls == old(calls) + [first, Call("POST", Some(RefreshUrl)), first] &&
          s == Settle(n + 2, answer(n + 2)) && location == old(location) && req.retry
        else
          calls == old(calls) + [first, Call("POST", Some(RefreshUrl))] &&
          s == Rejected(n + 1, StatusOf(answer(n + 1))) && location == LoginPage && req.retry
    {
      var n := |calls|;
      calls := calls + [Call(req.verb, req.url)];
      var a := answer(n);
      if IsSuccess(a) {
        return Resolved(n, a.status);
      }
      s := OnError(req, n, a);
    }

    /** The interceptor's error handler for call `n` of `req`, which got `a`. */
    method OnError(req: RequestConfig, n: nat, a: Answer) returns (s: Settled)
      requires !IsSuccess(a)
      modifies this, req
      decreases Measure(req), 0
      ensures location == old(location) || location == LoginPage
      ensures
        var m := |old(calls)|;
        var replay := Call(req.verb, req.url);
        if !TriggersRefresh(StatusOf(a), old(req.retry), req.url) then
          calls == old(calls) && s == Rejected(n, StatusOf(a)) &&
          location == old(location) && req.retry == old(req.retry)
        else if IsSuccess(answer(m)) then
          calls == old(calls) + [Call("POST", Some(RefreshUrl)), replay] &&
          s == Settle(m + 1, answer(m + 1)) && location == old(location) && req.retry
        else
          calls == old(calls) + [Call("POST", Some(RefreshUrl))] &&
          s == Rejected(m, StatusOf(answer(m))) && location == LoginPage && req.retry
    {
      if TriggersRefresh(StatusOf(a), req.retry, req.url) {
        req.retry := true;
        var refresh := new RequestConfig("POST", Some(RefreshUrl));
        RefreshIsAuthEndpoint(None, false);
        var refreshed := Send(refresh);
        if refreshed.Resolved? {
          s := Send(req);
        } else {
          location := LoginPage;
          s := refreshed;
        }
      } else {
        s := Rejected(n, StatusOf(a));
      }
    }
  }
}
