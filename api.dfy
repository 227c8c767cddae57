/**
 * The API client: one request retried under a fixed budget of attempts, and
 * the two calls the transfer makes through it. The wire, the headers and the
 * clock are abstract: each attempt's reply is an element of `replies`, and
 * each sleep is appended, in seconds, to `waits`.
 */
module Api {
  import opened Wrappers
  import opened Json
  import opened Settings

  /** One HTTP request: method, endpoint below the base URL, JSON body. */
  datatype Request = Request(verb: string, endpoint: string, data: Json)

  /** What one attempt of `requests.request` ends in. */
  datatype Reply =
      /** A reply that passes `raise_for_status`, with its decoded body. */
    | Success(body: Json)
      /** Status 429, with the Retry-After header in seconds when present. */
    | TooManyRequests(retryAfter: Option<nat>)
      /** A `RequestException`: a transport error, or an error status raised by `raise_for_status`. */
    | RequestFailed(error: string)

  /** How one `_make_request` call ends. */
  datatype CallResult =
      /** It returned the decoded body. */
    | Returned(body: Json)
      /** The loop ran out of attempts without returning: the call evaluates to `None`. */
    | FellThrough
      /** It re-raised the last `RequestException`. */
    | Raised(error: string)

  /** The reply to attempt `i`; an attempt beyond the scripted replies gets no answer. */
  function ReplyAt(replies: seq<Reply>, i: nat): Reply {
    if i < |replies| then replies[i] else RequestFailed("no reply")
  }

  /** `int(headers.get("Retry-After", RATE_LIMIT_DELAY))`. */
  function RateLimitWait(retryAfter: Option<nat>): nat {
    match retryAfter
    case None => RateLimitDelay
    case Some(seconds) => seconds
  }

  /** The sleep that follows a reply the loop retries. */
  function Backoff(reply: Reply): nat {
    match reply
    case Success(_) => 0
    case TooManyRequests(after) => RateLimitWait(after)
    case RequestFailed(_) => RetryDelay
  }

  /** The observable course of one call: its end, the number of requests sent, the sleeps in order. */
  datatype Exchange = Exchange(result: CallResult, attempts: nat, waits: seq<nat>)

  /** One more retried attempt, with sleep `wait`, in front of `rest`. */
  function Retried(wait: nat, rest: Exchange): Exchange {
    Exchange(rest.result, rest.attempts + 1, [wait] + rest.waits)
  }

  /**
   * The retry loop from the point where `retries` attempts have been used
   * up: a 429 always consumes a retry, a failed request consumes one while
   * `retries < MaxRetries - 1` and is re-raised otherwise.
   */
  function Retrying(replies: seq<Reply>, retries: nat): Exchange
    decreases MaxRetries - retries
  {
    if retries >= MaxRetries then Exchange(FellThrough, 0, [])
    else match ReplyAt(replies, retries)
      case Success(body) => Exchange(Returned(body), 1, [])
      case TooManyRequests(after) => Retried(RateLimitWait(after), Retrying(replies, retries + 1))
      case RequestFailed(error) =>
        if retries < MaxRetries - 1 then Retried(RetryDelay, Retrying(replies, retries + 1))
        else Exchange(Raised(error), 1, [])
  }

  /** The whole of one `_make_request` call. */
  function Exchanged(replies: seq<Reply>): Exchange {
    Retrying(replies, 0)
  }

  /**
   * The same loop written as `_make_request` runs it: `retries` attempts used
   * up and `waits` slept so far, to the end of the call.
   */
  function Continued(replies: seq<Reply>, retries: nat, waits: seq<nat>): Exchange
    decreases MaxRetries - retries
  {
    if retries >= MaxRetries then Exchange(FellThrough, retries, waits)
    else match ReplyAt(replies, retries)
      case Success(body) => Exchange(Returned(body), retries + 1, waits)
      case TooManyRequests(after) => Continued(replies, retries + 1, waits + [RateLimitWait(after)])
      case RequestFailed(error) =>
        if retries < MaxRetries - 1 then Continued(replies, retries + 1, waits + [RetryDelay])
        else Exchange(Raised(error), retries + 1, waits)
  }

  /** Continuing the loop is prefixing its state to the rest of the call. */
  lemma {:induction false} ContinuedIsRetrying(replies: seq<Reply>, retries: nat, waits: seq<nat>)
    ensures var rest := Retrying(replies, retries);
      Continued(replies, retries, waits) == Exchange(rest.result, retries + rest.attempts, waits + rest.waits)
    decreases MaxRetries - retries
  {
    if retries < MaxRetries {
      match ReplyAt(replies, retries)
      case Success(_) =>
        assert waits + [] == waits;
      case TooManyRequests(after) =>
        var wait := RateLimitWait(after);
        ContinuedIsRetrying(replies, retries + 1, waits + [wait]);
        assert waits + [wait] + Retrying(replies, retries + 1).waits == waits + ([wait] + Retrying(replies, retries + 1).waits);
      case RequestFailed(_) =>
        if retries < MaxRetries - 1 {
          ContinuedIsRetrying(replies, retries + 1, waits + [RetryDelay]);
          assert waits + [RetryDelay] + Retrying(replies, retries + 1).waits == waits + ([RetryDelay] + Retrying(replies, retries + 1).waits);
        } else {
          assert waits + [] == waits;
        }
    } else {
      assert waits + [] == waits;
    }
  }

  /** `_make_request`: send `request` until a reply passes, retries run out, or a failure is re-raised. */
  method MakeRequest(request: Request, replies: seq<Reply>)
    returns (result: CallResult, sent: seq<Request>, waits: seq<nat>)
    ensures result == Exchanged(replies).result
    ensures |sent| == Exchanged(replies).attempts
    ensures forall i :: 0 <= i < |sent| ==> sent[i] == request
    ensures waits == Exchanged(replies).waits
  {
    ContinuedIsRetrying(replies, 0, []);
    assert [] + Exchanged(replies).waits == Exchanged(replies).waits;
    var retries: nat := 0;
    sent, waits := [], [];
    while retries < MaxRetries
      invariant retries <= MaxRetries
      invariant |sent| == retries
      invariant forall i :: 0 <= i < |sent| ==> sent[i] == request
      invariant Continued(replies, retries, waits) == Continued(replies, 0, [])
      decreases MaxRetries - retries
    {
      var reply := ReplyAt(replies, retries);
      sent := sent + [request];
      match reply
      case TooManyRequests(after) =>
        var wait := RateLimitWait(after);
        waits := waits + [wait];
        retries := retries + 1;
      case Success(body) =>
        return Returned(body), sent, waits;
      case RequestFailed(error) =>
        if retries < MaxRetries - 1 {
          retries := retries + 1;
          waits := waits + [RetryDelay];
        } else {
          return Raised(error), sent, waits;
        }
    }
    result := FellThrough;
  }

  /** The body of a database query: a start cursor only when one is given and non-empty. */
  function QueryBody(startCursor: Option<string>): (body: Json)
    ensures body.JObject? && |body.fields| <= 1
    ensures forall f :: f in body.fields ==> f.0 == "start_cursor"
    ensures Get(body.fields, "start_cursor") ==
              if startCursor.Some? && startCursor.value != "" then Some(JString(startCursor.value)) else None
  {
    if startCursor.Some? && startCursor.value != "" then JObject([("start_cursor", JString(startCursor.value))])
    else JObject([])
  }

  /** The request `query_database` sends. */
  function QueryRequest(databaseId: string, startCursor: Option<string>): Request {
    Request("POST", "databases/" + databaseId + "/query", QueryBody(startCursor))
  }

  /** `query_database`: one retried POST to the database's query endpoint. */
  method QueryDatabase(databaseId: string, startCursor: Option<string>, replies: seq<Reply>)
    returns (result: CallResult, sent: seq<Request>, waits: seq<nat>)
    ensures result == Exchanged(replies).result && waits == Exchanged(replies).waits
    ensures |sent| == Exchanged(replies).attempts
    ensures forall i :: 0 <= i < |sent| ==>
              sent[i].verb == "POST" && sent[i].endpoint == "databases/" + databaseId + "/query" &&
              sent[i].data == QueryBody(startCursor)
  {
    result, sent, waits := MakeRequest(QueryRequest(databaseId, startCursor), replies);
  }

  /** `create_page`: one retried POST of `pageData`, unchanged, to the pages endpoint. */
  method CreatePage(pageData: Json, replies: seq<Reply>)
    returns (result: CallResult, sent: seq<Request>, waits: seq<nat>)
    ensures result == Exchanged(replies).result && waits == Exchanged(replies).waits
    ensures |sent| == Exchanged(replies).attempts
    ensures forall i :: 0 <= i < |sent| ==> sent[i] == Request("POST", "pages", pageData)
  {
    result, sent, waits := MakeRequest(Request("POST", "pages", pageData), replies);
  }

  // ---------------------------------------------------------------------
  // Properties of the retry loop

  /**
   * From any point of the loop: the attempts left are bounded by the budget,
   * every attempt but a final returning or raising one is followed by its
   * backoff, and the last attempt's reply decides the result.
   */
  lemma {:induction false} RetryingShape(replies: seq<Reply>, retries: nat)
    requires retries <= MaxRetries
    ensures var e := Retrying(replies, retries);
      && retries + e.attempts <= MaxRetries
      && (retries < MaxRetries ==> e.attempts >= 1)
      && |e.waits| == (if e.result.FellThrough? then e.attempts else e.attempts - 1)
      && (forall j :: 0 <= j < |e.waits| ==>
            !ReplyAt(replies, retries + j).Success? &&
            e.waits[j] == Backoff(ReplyAt(replies, retries + j)))
      && (e.result.Returned? ==> ReplyAt(replies, retries + e.attempts - 1) == Success(e.result.body))
      && (e.result.Raised? ==>
            retries + e.attempts == MaxRetries &&
            ReplyAt(replies, MaxRetries - 1) == RequestFailed(e.result.error))
      && (e.result.FellThrough? ==>
            retries + e.attempts == MaxRetries &&
            (retries < MaxRetries ==> ReplyAt(replies, MaxRetries - 1).TooManyRequests?))
    decreases MaxRetries - retries
  {
    if retries < MaxRetries {
      var reply := ReplyAt(replies, retries);
      if reply.TooManyRequests? || (reply.RequestFailed? && retries < MaxRetries - 1) {
        RetryingShape(replies, retries + 1);
        var rest := Retrying(replies, retries + 1);
        var e := Retrying(replies, retries);
        assert e == Retried(Backoff(reply), rest);
        forall j | 0 <= j < |e.waits|
          ensures !ReplyAt(replies, retries + j).Success? &&
                  e.waits[j] == Backoff(ReplyAt(replies, retries + j))
        {
          if j > 0 {
            assert e.waits[j] == rest.waits[j - 1];
            assert retries + j == (retries + 1) + (j - 1);
          }
        }
      }
    }
  }

  /** One call sends at least one and at most `MaxRetries` requests. */
  lemma AttemptsBounded(replies: seq<Reply>)
    ensures 1 <= Exchanged(replies).attempts <= MaxRetries
  {
    RetryingShape(replies, 0);
  }

  /**
   * A call returns exactly when some attempt within the budget succeeds with
   * no success before it; it returns that reply's body after that many attempts,
   * having slept the backoff of each earlier reply.
   */
  lemma {:induction false} ReturnsFirstSuccess(replies: seq<Reply>, k: nat)
    requires k < MaxRetries && ReplyAt(replies, k).Success?
    requires forall j :: 0 <= j < k ==> !ReplyAt(replies, j).Success?
    ensures Exchanged(replies).result == Returned(ReplyAt(replies, k).body)
    ensures Exchanged(replies).attempts == k + 1
    ensures |Exchanged(replies).waits| == k
  {
    ReturnsFrom(replies, 0, k);
  }

  /** `ReturnsFirstSuccess` from any point of the loop. */
  lemma {:induction false} ReturnsFrom(replies: seq<Reply>, retries: nat, k: nat)
    requires retries <= k < MaxRetries && ReplyAt(replies, k).Success?
    requires forall j :: retries <= j < k ==> !ReplyAt(replies, j).Success?
    ensures Retrying(replies, retries).result == Returned(ReplyAt(replies, k).body)
    ensures Retrying(replies, retries).attempts == k + 1 - retries
    ensures |Retrying(replies, retries).waits| == k - retries
    decreases k - retries
  {
    if retries < k {
      ReturnsFrom(replies, retries + 1, k);
    }
  }

  /** A returned body is the first successful reply, and nothing before it succeeded. */
  lemma ReturnedIsFirstSuccess(replies: seq<Reply>)
    requires Exchanged(replies).result.Returned?
    ensures var e := Exchanged(replies);
      ReplyAt(replies, e.attempts - 1) == Success(e.result.body) &&
      forall j :: 0 <= j < e.attempts - 1 ==> !ReplyAt(replies, j).Success?
  {
    RetryingShape(replies, 0);
  }

  /**
   * When every attempt is rate limited, the call makes `MaxRetries` attempts,
   * sleeps after each, and ends in `None` without raising.
   */
  lemma AllRateLimitedFallsThrough(replies: seq<Reply>)
    requires forall j :: 0 <= j < MaxRetries ==> ReplyAt(replies, j).TooManyRequests?
    ensures var e := Exchanged(replies);
      e.result == FellThrough && e.attempts == MaxRetries && |e.waits| == MaxRetries &&
      forall j :: 0 <= j < MaxRetries ==> e.waits[j] == RateLimitWait(ReplyAt(replies, j).retryAfter)
  {
    RetryingShape(replies, 0);
  }

  /**
   * A call raises exactly when no attempt before the last succeeds and the
   * last attempt's request fails; the error raised is that attempt's.
   */
  lemma RaisesIffLastAttemptFails(replies: seq<Reply>)
    ensures Exchanged(replies).result.Raised? <==>
              (forall j :: 0 <= j < MaxRetries - 1 ==> !ReplyAt(replies, j).Success?) &&
              ReplyAt(replies, MaxRetries - 1).RequestFailed?
    ensures Exchanged(replies).result.Raised? ==>
              Exchanged(replies).result.error == ReplyAt(replies, MaxRetries - 1).error &&
              Exchanged(replies).attempts == MaxRetries
  {
    RetryingShape(replies, 0);
  }

  /**
   * A call evaluates to `None` exactly when no attempt before the last
   * succeeds and the last attempt is rate limited; it then made every
   * attempt of the budget and slept after each one.
   */
  lemma FallsThroughIffLastAttemptRateLimited(replies: seq<Reply>)
    ensures Exchanged(replies).result.FellThrough? <==>
              (forall j :: 0 <= j < MaxRetries - 1 ==> !ReplyAt(replies, j).Success?) &&
              ReplyAt(replies, MaxRetries - 1).TooManyRequests?
    ensures Exchanged(replies).result.FellThrough? ==>
              Exchanged(replies).attempts == MaxRetries && |Exchanged(replies).waits| == MaxRetries
  {
    RetryingShape(replies, 0);
  }

  /** A 429 with `Retry-After: 2`, then a success: one sleep of 2 seconds and the body is returned. */
  lemma RateLimitRecovery(body: Json, rest: seq<Reply>)
    ensures var e := Exchanged([TooManyRequests(Some(2)), Success(body)] + rest);
      e.result == Returned(body) && e.attempts == 2 && e.waits == [2]
  {
    var replies := [TooManyRequests(Some(2)), Success(body)] + rest;
    ReturnsFirstSuccess(replies, 1);
    RetryingShape(replies, 0);
  }

  /** A server that always fails: `MaxRetries` attempts, a `RetryDelay` sleep between them, then the error is raised. */
  lemma RetryExhaustion(error: string)
    ensures var e := Exchanged([RequestFailed(error), RequestFailed(error), RequestFailed(error)]);
      e.result == Raised(error) && e.attempts == MaxRetries && e.waits == [RetryDelay, RetryDelay]
  {
    var replies := [RequestFailed(error), RequestFailed(error), RequestFailed(error)];
    RaisesIffLastAttemptFails(replies);
    RetryingShape(replies, 0);
  }
}
