/** The image proxy route (app/api/image-proxy/route.ts): refuses a request
    without a `url`, waits when `delay` is positive, fetches the URL and
    passes the image on with the same no-cache headers as the generator. */
module ImageProxy {
  import opened Js
  import opened Urls
  import opened Http

  /** What the upstream fetch came to: it threw, or it answered with a
      status, a content-type header, and a body whose reading either
      succeeded (`Some`) or threw (`None`). */
  datatype Fetched =
    | Unreachable
    | Answer(status: int, contentType: Option<string>, body: Option<seq<bv8>>)

  /** `response.ok`: a status in the range 200 to 299. */
  predicate Ok(status: int) {
    200 <= status <= 299
  }

  /** Whether `new NextResponse(text, { status })` can be built: a response
      with a body takes a status from 200 to 599, and not 304, a status
      that must have no body (the null-body statuses of the Fetch standard
      below 600 that are not ok). Any other status makes the constructor
      throw, inside the route's `try`. */
  predicate Constructible(status: int) {
    200 <= status <= 599 && status != 304
  }

  const UserAgent: Headers := [("User-Agent", "OG-Simulator/1.0")]

  /** The route with the wait lasting `delay * scale` milliseconds. */
  function Serve(q: Query, fetched: Fetched, scale: int): Run {
    var imageUrl := Get(q, "url");
    var delay := ParseOr(Get(q, "delay"), 0);
    if !Truthy(imageUrl) then Run([], Plain(400, "Missing image URL"))
    else
      var steps := SleepFor(delay, scale) + [Fetch(imageUrl.value, UserAgent)];
      Run(steps, Answered(fetched))
  }

  /** The response once the fetch has come back. A non-ok status is passed
      on with a text, unless that response cannot be built (a 304, or a
      status outside 200 to 599); the constructor then throws and the
      `catch` answers 500. */
  function Answered(fetched: Fetched): (r: Response)
    ensures fetched.Unreachable? ==> r == Plain(500, "Error fetching image")
    ensures fetched.Answer? && !Ok(fetched.status) && Constructible(fetched.status) ==>
      r == Plain(fetched.status, "Failed to fetch image")
    ensures fetched.Answer? && !Ok(fetched.status) && !Constructible(fetched.status) ==>
      r == Plain(500, "Error fetching image")
    ensures fetched.Answer? && Ok(fetched.status) && fetched.body.None? ==> r == Plain(500, "Error fetching image")
    ensures fetched.Answer? && Ok(fetched.status) && fetched.body.Some? ==>
      r == Response(200, Bytes(fetched.body.value),
                    ImageHeaders(if Truthy(fetched.contentType) then fetched.contentType.value else "image/jpeg"))
  {
    match fetched
    case Unreachable => Plain(500, "Error fetching image")
    case Answer(status, contentType, body) =>
      if !Ok(status) then
        if Constructible(status) then Plain(status, "Failed to fetch image")
        else Plain(500, "Error fetching image")
      else if body.None? then Plain(500, "Error fetching image")
      else Response(200, Bytes(body.value), ImageHeaders(if Truthy(contentType) then contentType.value else "image/jpeg"))
  }

  /** The route as written: `setTimeout(resolve, delay * 1000)`. */
  function Handle(q: Query, fetched: Fetched): (run: Run)
    ensures !Truthy(Get(q, "url")) ==> run == Run([], Plain(400, "Missing image URL"))
    ensures Truthy(Get(q, "url")) ==>
      && run.steps == (if Positive(ParseOr(Get(q, "delay"), 0))
                       then [Sleep(ParseOr(Get(q, "delay"), 0).i * 1000)] else [])
                      + [Fetch(Get(q, "url").value, [("User-Agent", "OG-Simulator/1.0")])]
      && run.response == Answered(fetched)
  {
    Serve(q, fetched, 1000)
  }

  /** The route with the wait it evidently means: `delay` milliseconds, the
      unit every caller writes into the proxy link. */
  function HandleCorrected(q: Query, fetched: Fetched): (run: Run)
    ensures !Truthy(Get(q, "url")) ==> run == Run([], Plain(400, "Missing image URL"))
    ensures Truthy(Get(q, "url")) ==>
      && run.steps == (if Positive(ParseOr(Get(q, "delay"), 0))
                       then [Sleep(ParseOr(Get(q, "delay"), 0).i)] else [])
                      + [Fetch(Get(q, "url").value, [("User-Agent", "OG-Simulator/1.0")])]
      && run.response == Answered(fetched)
  {
    Serve(q, fetched, 1)
  }

  // ---------------------------------------------------------------------
  // Properties

  /** Without a url the route neither waits nor fetches, and what a fetch
      would have returned makes no difference. */
  lemma MissingUrlIgnoresUpstream(q: Query, f: Fetched, f': Fetched)
    requires !Truthy(Get(q, "url"))
    ensures Handle(q, f) == Handle(q, f') && Handle(q, f).steps == []
    ensures HandleCorrected(q, f) == HandleCorrected(q, f')
  {
  }

  /** Whenever a url is given the fetch is the last step, so any wait comes
      before it, and there is at most one wait. */
  lemma FetchIsLast(q: Query, f: Fetched)
    requires Truthy(Get(q, "url"))
    ensures var s := Handle(q, f).steps;
      && 1 <= |s| <= 2
      && s[|s| - 1] == Fetch(Get(q, "url").value, UserAgent)
      && forall k :: 0 <= k < |s| - 1 ==> s[k].Sleep?
  {
  }

  /** The proxy answers 200 exactly when the upstream answered ok and its
      body could be read, and then the bytes are passed on unchanged. */
  lemma SuccessIff(q: Query, f: Fetched)
    requires Truthy(Get(q, "url"))
    ensures Handle(q, f).response.status == 200 <==> f.Answer? && Ok(f.status) && f.body.Some?
    ensures Handle(q, f).response.status == 200 ==> Handle(q, f).response.body == Bytes(f.body.value)
    ensures Handle(q, f).response.status != 200 ==> Handle(q, f).response.body.Text?
  {
  }

  /** A 304 or an out-of-range status from upstream is not passed on: the
      response that would carry it cannot be built, and the route answers
      500 like any other failure. */
  lemma UnbuildableStatus(q: Query, ct: Option<string>, body: Option<seq<bv8>>)
    requires Truthy(Get(q, "url"))
    ensures Handle(q, Answer(304, ct, body)).response == Plain(500, "Error fetching image")
    ensures Handle(q, Answer(600, ct, body)).response == Plain(500, "Error fetching image")
    ensures Handle(q, Answer(199, ct, body)).response == Plain(500, "Error fetching image")
    ensures Handle(q, Answer(404, ct, body)).response == Plain(404, "Failed to fetch image")
  {
  }

  /** As written, the wait is a thousand times the delay the corrected route
      waits; the two agree on everything else. */
  lemma ThousandfoldWait(q: Query, f: Fetched)
    requires Truthy(Get(q, "url")) && Positive(ParseOr(Get(q, "delay"), 0))
    ensures Handle(q, f).steps[0] == Sleep(HandleCorrected(q, f).steps[0].ms * 1000)
    ensures Handle(q, f).response == HandleCorrected(q, f).response
    ensures |Handle(q, f).steps| == |HandleCorrected(q, f).steps| == 2
  {
  }
}
