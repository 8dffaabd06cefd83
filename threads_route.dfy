/** The `GET` handler of the threads route (src/app/api/threads/route.ts):
    it checks the query, forwards it to the SoulGraph service and maps every
    way the upstream call can fail to a status and an error message. The
    upstream body is passed through untouched, so its type is a parameter. */
module ThreadsRoute {
  import opened Wrappers
  import opened JsText
  import opened ChatTypes
  import Api

  const DefaultApiUrl: string := "http://localhost:8000"
  const ThreadsPath: string := "/v0/threads"
  const DefaultLimit: string := "50"
  const DefaultOffset: string := "0"
  const MissingUser: string := "user_id is required"
  const UpstreamError: string := "Error from SoulGraph API"
  const NoResponseError: string := "No response from SoulGraph API"
  const UnknownError: string := "Unknown error"

  /** How the upstream call can fail; "" stands for an absent message. */
  datatype Failure =
    | ErrorStatus(status: nat, dataError: string)   // the service answered with an error status
    | NoResponse                                    // the request went out, nothing came back
    | SetupError(message: string)                   // the request could not be made

  /** The query forwarded upstream. */
  datatype Forwarded = Forwarded(url: string, userId: string, limit: string, offset: string)

  datatype Reply<T> = Passed(data: T) | ErrorReply(status: nat, error: string)

  /** `process.env.API_URL || 'http://localhost:8000'`. */
  function BaseUrl(env: string): (url: string)
    ensures url != ""
    ensures env != "" ==> url == env
  {
    if env != "" then env else DefaultApiUrl
  }

  /** `searchParams.get(name)`, with "" for a missing parameter. */
  function Param(query: map<string, string>, name: string): string
  {
    if name in query then query[name] else ""
  }

  /** `param || fallback`. */
  function OrDefault(value: string, fallback: string): (r: string)
    ensures value != "" ==> r == value
    ensures value == "" ==> r == fallback
  {
    if value != "" then value else fallback
  }

  /** The upstream request, or `None` when the handler answers 400 without
      calling upstream. */
  function Forward(base: string, query: map<string, string>): (r: Option<Forwarded>)
    ensures r.None? <==> Param(query, "user_id") == ""
    ensures r.Some? ==>
      (r.value.url == base + ThreadsPath
       && r.value.userId == query["user_id"]
       && r.value.limit == OrDefault(Param(query, "limit"), DefaultLimit) && r.value.limit != ""
       && r.value.offset == OrDefault(Param(query, "offset"), DefaultOffset) && r.value.offset != "")
  {
    var userId := Param(query, "user_id");
    if userId == "" then None
    else Some(Forwarded(base + ThreadsPath, userId, OrDefault(Param(query, "limit"), DefaultLimit),
                        OrDefault(Param(query, "offset"), DefaultOffset)))
  }

  /** The `catch` block: the reply for each kind of upstream failure. */
  function Classify<T>(failure: Failure): (r: Reply<T>)
    ensures r.ErrorReply? && r.error != ""
    ensures failure.ErrorStatus? ==>
      (r.status == failure.status && r.error == OrDefault(failure.dataError, UpstreamError))
    ensures failure.NoResponse? ==> r == ErrorReply(503, NoResponseError)
    ensures failure.SetupError? ==> r.status == 500 && r.error == OrDefault(failure.message, UnknownError)
  {
    match failure
    case ErrorStatus(status, dataError) => ErrorReply(status, OrDefault(dataError, UpstreamError))
    case NoResponse => ErrorReply(503, NoResponseError)
    case SetupError(message) => ErrorReply(500, OrDefault(message, UnknownError))
  }

  /** `GET`: the upstream call it makes and the reply it returns, given what
      upstream does with a call. */
  function Get<T>(env: string, query: map<string, string>, upstream: Result<T, Failure>): (r: (Option<Forwarded>, Reply<T>))
    ensures r.0 == Forward(BaseUrl(env), query)
    ensures r.0.None? ==> r.1 == ErrorReply(400, MissingUser)
    ensures r.0.Some? && upstream.Ok? ==> r.1 == Passed(upstream.value)
    ensures r.0.Some? && upstream.Err? ==> r.1 == Classify(upstream.error)
  {
    var call := Forward(BaseUrl(env), query);
    if call.None? then (None, ErrorReply(400, MissingUser))
    else if upstream.Err? then (call, Classify(upstream.error))
    else (call, Passed(upstream.value))
  }

  // ---------------------------------------------------------------------
  // Properties of the mapping

  /** The upstream body is returned exactly when a user is named and the
      upstream call succeeded; every other reply names its error. This
      follows from the contracts of `Forward`, `Classify` and `Get`; it is
      stated for every input because the client's `getThreads` reads a
      thread list only from a passed-through body. */
  lemma PassThroughExactly<T>(env: string, query: map<string, string>, upstream: Result<T, Failure>)
    ensures Get(env, query, upstream).1.Passed?
      <==> Param(query, "user_id") != "" && upstream.Ok?
    ensures Get(env, query, upstream).1.ErrorReply? ==> Get(env, query, upstream).1.error != ""
  {
  }

  /** An upstream error status is passed on unchanged, and no other failure
      produces a 4xx status: a 400 from this route without an upstream 400
      means the user was missing. This follows from the contracts of
      `Classify` and `Get`; a client telling a bad request of its own from
      one upstream rejected relies on it. */
  lemma StatusOrigin<T>(env: string, query: map<string, string>, upstream: Result<T, Failure>)
    ensures var reply := Get(env, query, upstream).1;
      reply.ErrorReply? && 400 <= reply.status < 500 ==>
        Param(query, "user_id") == "" || (upstream.Err? && upstream.error.ErrorStatus? && upstream.error.status == reply.status)
  {
  }

  // ---------------------------------------------------------------------
  // The client's listing call through this route

  /** The query the client's `getThreads` sends is accepted and forwarded
      as it is: the fixed user and the page it asked for, never the
      defaults. */
  lemma ClientQueryForwarded(env: string, limit: nat, offset: nat)
    ensures Forward(BaseUrl(env), Api.ThreadsQuery(limit, offset))
      == Some(Forwarded(BaseUrl(env) + ThreadsPath, Api.TestUserId, NatToDecimal(limit), NatToDecimal(offset)))
  {
  }

  /** What the client's axios call makes of this route's reply: the body,
      or a rejection for an error status. */
  function AsClientReply(reply: Reply<seq<ChatThread>>): Result<seq<ChatThread>, string>
  {
    match reply
    case Passed(threads) => Ok(threads)
    case ErrorReply(_, error) => Err(error)
  }

  /** Listing through the route: the client gets the upstream threads when
      upstream answers, and the empty list for every upstream failure. */
  lemma ListingThroughRoute(env: string, limit: nat, offset: nat, upstream: Result<seq<ChatThread>, Failure>)
    ensures var reply := Get(env, Api.ThreadsQuery(limit, offset), upstream).1;
      Api.GetThreads(limit, offset, AsClientReply(reply)).1 == (if upstream.Ok? then upstream.value else [])
  {
    ClientQueryForwarded(env, limit, offset);
  }
}
