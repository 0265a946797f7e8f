/** The shared HTTP client: base URLs, the header the request interceptor
    attaches, the response interceptor that refreshes an expired access
    token once for all requests that failed meanwhile, and the helpers that
    unwrap list responses. Transport is not modelled: a request is an
    object whose headers and retry flag the interceptors update, and a
    settled waiter is recorded instead of resubmitted. */
module ApiClient {
  import opened Text
  import opened Util
  import opened JsValue

  /** `(VITE_AUTH_TOKEN_PREFIX || "Bearer").trim()`, with the environment
      variable absent, empty or set. */
  function TokenPrefix(env: Option<string>): (p: string)
    ensures env.None? || env.value == [] ==> p == "Bearer"
    ensures env.Some? && env.value != [] ==> p == Trim(env.value)
  {
    if env.Some? && env.value != [] then Trim(env.value) else Trim("Bearer")
  }

  /** The prefix never has white space around it, so the header is the
      prefix, exactly one space and the token. A prefix without spaces is
      used as configured; a setting made only of spaces is truthy and
      yields the empty prefix. */
  lemma TokenPrefixMeaning(env: Option<string>)
    ensures var p := TokenPrefix(env);
            && Trim(p) == p
            && (p == [] || (!IsSpace(p[0]) && !IsSpace(p[|p| - 1])))
            && (env.None? ==> p == "Bearer")
            && (env.Some? && env.value != [] && (forall i :: 0 <= i < |env.value| ==> !IsSpace(env.value[i])) ==>
                 p == env.value)
            && (env.Some? && env.value != [] && IsBlank(env.value) ==> p == [])
  {
    var p := TokenPrefix(env);
    if env.Some? && env.value != [] {
      TrimmedEnds(env.value);
      TrimIdempotent(env.value);
      if forall i :: 0 <= i < |env.value| ==> !IsSpace(env.value[i]) {
        TrimNoSpace(env.value);
      }
    } else {
      TrimNoSpace("Bearer");
    }
  }

  /** `baseURL.replace(/\/$/, "") + "/api"`: one trailing slash dropped. */
  function BaseUrl(url: string): string {
    (if |url| > 0 && url[|url| - 1] == '/' then url[..|url| - 1] else url) + "/api"
  }

  /** The URL always ends in "/api"; a URL without a trailing slash keeps
      everything before it, and adding one trailing slash to such a URL
      does not change the result. A second slash is kept. */
  lemma BaseUrlMeaning(url: string)
    ensures var r := BaseUrl(url);
            && |r| >= 4 && r[|r| - 4..] == "/api"
            && (url == [] || url[|url| - 1] != '/' ==> r == url + "/api")
            && (url == [] || url[|url| - 1] != '/' ==> BaseUrl(url + "/") == r)
            && BaseUrl(url + "//") == url + "/" + "/api"
  {
    assert (url + "/")[..|url|] == url;
    assert (url + "//")[..|url| + 1] == url + "/";
  }

  /** The two services the console talks to. */
  lemma ServiceUrls()
    ensures BaseUrl("http://127.0.0.1:8000") == "http://127.0.0.1:8000/api"
    ensures BaseUrl("http://127.0.0.1:8001") == "http://127.0.0.1:8001/api"
  {
    BaseUrlMeaning("http://127.0.0.1:8000");
    BaseUrlMeaning("http://127.0.0.1:8001");
  }

  /** `unwrapList(data)`: an array as it is, else an array under `results`,
      else the empty list. */
  function UnwrapList(data: Value): (r: seq<Value>)
    ensures data.Arr? ==> r == data.elems
    ensures !data.Arr? && Get(data, "results").Arr? ==> r == Get(data, "results").elems
    ensures !data.Arr? && !Get(data, "results").Arr? ==> r == []
  {
    if data.Arr? then data.elems
    else if Truthy(Get(data, "results")) && Get(data, "results").Arr? then Get(data, "results").elems
    else []
  }

  /** `unwrapFirst(data)`: the first listed element, or `None` for `null`. */
  function UnwrapFirst(data: Value): (r: Option<Value>)
    ensures r.None? <==> UnwrapList(data) == []
    ensures r.Some? ==> r.value == UnwrapList(data)[0]
  {
    var list := UnwrapList(data);
    if |list| > 0 then Some(list[0]) else None
  }

  /** Unwrapping inverts both shapes a list is sent in: an array, and a
      paginated envelope with the array under `results` whatever its other
      keys. The first element is `null` exactly for an empty list, and the
      list is the one the screens unwrap inline. */
  lemma UnwrapMeaning(xs: seq<Value>, envelope: map<string, Value>, data: Value)
    ensures UnwrapList(Arr(xs)) == xs
    ensures UnwrapList(Obj(envelope["results" := Arr(xs)])) == xs
    ensures "results" !in envelope ==> UnwrapList(Obj(envelope)) == []
    ensures UnwrapFirst(Arr(xs)) == (if xs == [] then None else Some(xs[0]))
    ensures UnwrapFirst(Obj(envelope["results" := Arr(xs)])) == UnwrapFirst(Arr(xs))
    ensures UnwrapFirst(data).Some? ==> UnwrapFirst(data).value in UnwrapList(data)
    ensures UnwrapList(data) == ArrayOrResults(data)
  {
  }

  /** The three `detail` strings the backend sends for a token that must
      be refreshed. */
  predicate IsExpiryDetail(detail: Value) {
    detail == Str("Token expired.")
    || detail == Str("Invalid or expired token")
    || detail == Str("Authentication credentials were not provided.")
  }

  /** `needsRefresh` for a failed response with the given status, the
      request's `_retry` flag and the body's `detail`. */
  predicate NeedsRefresh(status: Option<int>, retried: bool, detail: Value) {
    (status == Some(401) || status == Some(403)) && !retried && IsExpiryDetail(detail)
  }

  /** A request already marked as retried is never refreshed again, and a
      status other than 401 or 403, or any other detail, is passed on. */
  lemma NeedsRefreshMeaning(status: Option<int>, retried: bool, detail: Value)
    ensures NeedsRefresh(status, true, detail) == false
    ensures status != Some(401) && status != Some(403) ==> !NeedsRefresh(status, retried, detail)
    ensures !detail.Str? ==> !NeedsRefresh(status, retried, detail)
    ensures NeedsRefresh(Some(401), false, Str("Token expired."))
  {
  }

  /** An outgoing request: its URL, its headers and its `_retry` flag. */
  class Request {
    const id: nat
    const url: string
    var headers: map<string, string>
    var retried: bool

    constructor (id: nat, url: string, headers: map<string, string>)
      ensures this.id == id && this.url == url && this.headers == headers && !retried
    {
      this.id := id;
      this.url := url;
      this.headers := headers;
      retried := false;
    }

    /** The request interceptor, given the stored `access_token`: a truthy
        token sets `Authorization` to prefix, a space and the token; without
        one the headers are left alone. */
    method AttachAuth(token: Value, prefix: string)
      modifies this`headers
      ensures Truthy(token) ==> headers == old(headers)["Authorization" := prefix + " " + ToStr(token)]
      ensures !Truthy(token) ==> headers == old(headers)
    {
      if Truthy(token) {
        headers := headers["Authorization" := prefix + " " + ToStr(token)];
      }
    }
  }

  /** A continuation queued until the refresh settles: the failed request
      it will resubmit or reject. */
  datatype Waiter = Waiter(request: nat)

  /** What a waiter did when released: resubmitted its request with the
      given `Authorization` header, or rejected with the original error. */
  datatype Settlement = Resubmitted(request: nat, authorization: string) | RejectedWithError(request: nat)

  /** The waiter's continuation for the released token. */
  function Settle(w: Waiter, token: Option<string>, prefix: string): (s: Settlement)
    ensures s.request == w.request
    ensures s.Resubmitted? <==> token.Some? && token.value != []
    ensures s.Resubmitted? ==> s.authorization == prefix + " " + token.value
  {
    if token.Some? && token.value != [] then Resubmitted(w.request, prefix + " " + token.value)
    else RejectedWithError(w.request)
  }

  /** A released waiter resubmits exactly when the request interceptor
      would attach the token, and with the header it would attach; without
      a token every waiter rejects. */
  lemma SettleAgreesWithAttach(w: Waiter, token: string, prefix: string)
    ensures Settle(w, Some(token), prefix).Resubmitted? <==> Truthy(Str(token))
    ensures Settle(w, Some(token), prefix).Resubmitted? ==>
              Settle(w, Some(token), prefix).authorization == prefix + " " + ToStr(Str(token))
    ensures Settle(w, None, prefix) == RejectedWithError(w.request)
  {
  }

  /** The settlements of a list of waiters released together, in order. */
  function Settlements(ws: seq<Waiter>, token: Option<string>, prefix: string): seq<Settlement> {
    Map(ws, (w: Waiter) => Settle(w, token, prefix))
  }

  /** Releasing waiters settles each of them once, in queue order, all with
      the same token. */
  lemma SettlementsMeaning(ws: seq<Waiter>, token: Option<string>, prefix: string)
    ensures var s := Settlements(ws, token, prefix);
            && |s| == |ws|
            && (forall i :: 0 <= i < |ws| ==> s[i].request == ws[i].request)
            && (forall i :: 0 <= i < |ws| ==> (s[i].Resubmitted? <==> token.Some? && token.value != []))
            && (forall i :: 0 <= i < |ws| && s[i].Resubmitted? ==>
                  s[i].authorization == prefix + " " + token.value)
  {
  }

  /** One refresh as the interceptor runs it for the request that started
      it: release the queue with the new token, clear the flag, and only
      then queue its own continuation. Returns what was settled and what
      stays queued. */
  function AsWrittenWave(queue: seq<Waiter>, initiator: Waiter, token: Option<string>, prefix: string)
    : (r: (seq<Settlement>, seq<Waiter>))
    ensures r.1 == [initiator]
  {
    (Settlements(queue, token, prefix), [initiator])
  }

  /** The same refresh with the initiator queued before the release, so
      the refresh it started also settles it. */
  function CorrectedWave(queue: seq<Waiter>, initiator: Waiter, token: Option<string>, prefix: string)
    : (r: (seq<Settlement>, seq<Waiter>))
    ensures r.1 == []
  {
    (Settlements(queue + [initiator], token, prefix), [])
  }

  /** The request that starts a refresh is not settled by it: it stays
      queued until some later refresh, even when the refresh succeeded. */
  lemma InitiatorLeftWaiting(queue: seq<Waiter>, initiator: Waiter, token: Option<string>, prefix: string)
    requires forall i :: 0 <= i < |queue| ==> queue[i].request != initiator.request
    ensures var (settled, remaining) := AsWrittenWave(queue, initiator, token, prefix);
            && (forall i :: 0 <= i < |settled| ==> settled[i].request != initiator.request)
            && remaining == [initiator]
  {
    SettlementsMeaning(queue, token, prefix);
  }

  /** With the corrected order every queued request and the initiator are
      settled exactly once, the initiator last, and nothing stays queued. */
  lemma CorrectedSettlesInitiator(queue: seq<Waiter>, initiator: Waiter, token: Option<string>, prefix: string)
    ensures var (settled, remaining) := CorrectedWave(queue, initiator, token, prefix);
            && |settled| == |queue| + 1
            && (forall i :: 0 <= i < |queue| ==> settled[i].request == queue[i].request)
            && settled[|queue|] == Settle(initiator, token, prefix)
            && remaining == []
  {
    SettlementsMeaning(queue + [initiator], token, prefix);
  }

  /** How the response interceptor disposed of an error. */
  datatype Handling = PassedOn | StartedRefresh | Queued

  /** The module-level single-flight state: the refresh flag, the waiter
      queue, and the settlements released so far. */
  class RefreshCoordinator {
    var isRefreshing: bool
    var waiters: seq<Waiter>
    var settled: seq<Settlement>
    const prefix: string

    constructor (prefix: string)
      ensures !isRefreshing && waiters == [] && settled == [] && this.prefix == prefix
    {
      isRefreshing := false;
      waiters := [];
      settled := [];
      this.prefix := prefix;
    }

    /** `enqueue(cb)` */
    method Enqueue(w: Waiter)
      modifies this`waiters
      ensures waiters == old(waiters) + [w]
    {
      waiters := waiters + [w];
    }

    /** `releaseAll(token)`: every queued waiter is called once, in order,
        with the same token, and the queue is emptied. */
    method ReleaseAll(token: Option<string>)
      modifies this`waiters, this`settled
      ensures settled == old(settled) + Settlements(old(waiters), token, prefix)
      ensures waiters == []
    {
      var i := 0;
      while i < |waiters|
        invariant 0 <= i <= |waiters| && waiters == old(waiters)
        invariant settled == old(settled) + Settlements(waiters[..i], token, prefix)
      {
        assert Settlements(waiters[..i + 1], token, prefix)
               == Settlements(waiters[..i], token, prefix) + [Settle(waiters[i], token, prefix)];
        settled := settled + [Settle(waiters[i], token, prefix)];
        i := i + 1;
      }
      assert waiters[..i] == waiters;
      waiters := [];
    }

    /** The response interceptor up to its `await`: an error that does not
        need a refresh is passed on untouched; otherwise the request is
        marked as retried, and either starts the refresh or, when one is
        already running, queues its continuation. */
    method OnAuthError(req: Request, status: Option<int>, detail: Value) returns (h: Handling)
      modifies this`isRefreshing, this`waiters, req`retried
      ensures !NeedsRefresh(status, old(req.retried), detail) ==>
                h == PassedOn && req.retried == old(req.retried)
                && isRefreshing == old(isRefreshing) && waiters == old(waiters)
      ensures NeedsRefresh(status, old(req.retried), detail) ==> req.retried
      ensures NeedsRefresh(status, old(req.retried), detail) && !old(isRefreshing) ==>
                h == StartedRefresh && isRefreshing && waiters == old(waiters)
      ensures NeedsRefresh(status, old(req.retried), detail) && old(isRefreshing) ==>
                h == Queued && isRefreshing && waiters == old(waiters) + [Waiter(req.id)]
    {
      if !NeedsRefresh(status, req.retried, detail) {
        return PassedOn;
      }
      req.retried := true;
      if !isRefreshing {
        isRefreshing := true;
        return StartedRefresh;
      }
      Enqueue(Waiter(req.id));
      return Queued;
    }

    /** The rest of the interceptor for the request that started the
        refresh, once `refreshAccessToken` has settled (`None` when it
        returned nothing or threw): the queue is released, the flag cleared,
        and the initiator's continuation is queued only afterwards. */
    method OnRefreshSettled(initiator: nat, token: Option<string>)
      modifies this`isRefreshing, this`waiters, this`settled
      ensures |settled| >= |old(settled)|
      ensures (settled[|old(settled)|..], waiters)
              == AsWrittenWave(old(waiters), Waiter(initiator), token, prefix)
      ensures settled[..|old(settled)|] == old(settled)
      ensures !isRefreshing
    {
      ReleaseAll(token);
      assert settled[|old(settled)|..] == Settlements(old(waiters), token, prefix);
      isRefreshing := false;
      Enqueue(Waiter(initiator));
      assert waiters == [Waiter(initiator)];
    }

    /** `OnRefreshSettled` with the initiator's continuation queued before
        the release. */
    method OnRefreshSettledCorrected(initiator: nat, token: Option<string>)
      modifies this`isRefreshing, this`waiters, this`settled
      ensures |settled| >= |old(settled)|
      ensures (settled[|old(settled)|..], waiters)
              == CorrectedWave(old(waiters), Waiter(initiator), token, prefix)
      ensures settled[..|old(settled)|] == old(settled)
      ensures !isRefreshing
    {
      Enqueue(Waiter(initiator));
      ReleaseAll(token);
      isRefreshing := false;
    }
  }
}
