/**
 * How the page reads the two routes' responses, and what follows when the
 * page talks to these routes: the page's own prompt always passes the
 * route's prompt check, route errors reach the page verbatim, and against
 * the placeholder status route every job stops polling after one reply
 * and never completes.
 */
module Wiring {
  import opened Wrappers
  import opened JsText
  import opened PageValues
  import opened Lifecycle
  import GenerateRoute
  import StatusRoute

  /** The parsed body the generate route receives from the page. */
  function BodyOf(p: GeneratePayload): GenerateRoute.RequestBody<GeneratePayload> {
    GenerateRoute.Parsed(GenerateRoute.PromptString(p.prompt), p)
  }

  /** A generate-route response as the page reads it (`GenerateResponse`). */
  function ReadGenerateResponse(r: GenerateRoute.Response): GenerateReply {
    match r.body
    case Accepted(id) => GenerateOk(id)
    case Rejected(err, _, _) => GenerateNotOk(Some(err), r.code)
  }

  /** A status-route response as the page reads it (`StatusResponse`); the route never sends an image. */
  function ReadStatusResponse(r: StatusRoute.Response): StatusReply {
    if !r.body.ok then StatusNotOk(r.body.error, r.code)
    else StatusOk(r.body.status.GetOr(""), None, r.body.error)
  }

  /**
   * The page only sends a prompt that is non-blank after trimming, so the
   * route's prompt check never refuses it; with the configuration set, the
   * page's payload is what goes upstream.
   */
  lemma PagePromptPassesRoute(s: PageState, env: GenerateRoute.Env, upstream: GenerateRoute.UpstreamOutcome)
    requires CanGenerate(s)
    ensures GenerateRoute.Post(BodyOf(Payload(s)), env, upstream).code != 400
    ensures GenerateRoute.Configured(env) ==>
              GenerateRoute.UpstreamCall(BodyOf(Payload(s)), env).Some? &&
              GenerateRoute.UpstreamCall(BodyOf(Payload(s)), env).value.body == Payload(s)
  {
  }

  /**
   * What the page shows for each answer of the generate route: the job id
   * and polling when accepted; otherwise FAILED with the route's error text,
   * or the coded fallback when that text is empty.
   */
  lemma GenerateAnswerOnPage(s: PageState, historyId: string, body: GenerateRoute.RequestBody<GeneratePayload>,
                             env: GenerateRoute.Env, upstream: GenerateRoute.UpstreamOutcome)
    ensures var r := GenerateRoute.Post(body, env, upstream);
      var t := GenerateReplied(s, historyId, ReadGenerateResponse(r));
      && (r.body.Accepted? ==>
            t.status == InProgress && t.jobId == Some(upstream.json.id.id) &&
            t.pollTimer == Some(PollTarget(upstream.json.id.id, historyId)))
      && (r.body.Rejected? ==> t.status == Failed && t.pollTimer == None)
      && (r.body.Rejected? && r.body.error != "" ==> t.error == Some(r.body.error))
      && (r.body.Rejected? && r.body.error == "" ==> t.error == Some("Generate request failed (502)"))
  {
    var r := GenerateRoute.Post(body, env, upstream);
    if r.body.Rejected? && r.body.error == "" {
      assert r.code == 502;
      assert NatToString(502) == "502" by {
        assert NatToString(5) == "5";
        assert NatToString(50) == "50";
      }
      assert "Generate request failed (" + "502" + ")" == "Generate request failed (502)";
    }
  }

  /** A thrown upstream error with an empty message reaches the page as the coded fallback. */
  lemma EmptyUpstreamMessage(s: PageState, historyId: string, p: GeneratePayload, env: GenerateRoute.Env)
    requires p.prompt != "" && GenerateRoute.Configured(env)
    ensures GenerateReplied(s, historyId,
              ReadGenerateResponse(GenerateRoute.Post(BodyOf(p), env, GenerateRoute.TransportError(Some(""))))).error
            == Some("Generate request failed (502)")
  {
    GenerateAnswerOnPage(s, historyId, BodyOf(p), env, GenerateRoute.TransportError(Some("")));
  }

  /**
   * Against the placeholder status route, one poll reply ends polling and
   * never completes the job: an id with "-u" leaves the page in the status
   * PENDING, which it does not know, with "Generation failed"; any other id
   * ends FAILED with the route's message.
   */
  lemma PlaceholderStatusEndsPolling(s: PageState, historyId: string, jobId: string)
    ensures var t := PollReplied(s, historyId, ReadStatusResponse(StatusRoute.Get(Some(jobId))));
      && t.pollTimer == None && t.status != Completed && !Busy(t)
      && (jobId != "" && OccursIn("-u", jobId) ==>
            t.status == Other("PENDING") && t.error == Some("Generation failed") && StatusLabel(t.status) == "PENDING")
      && (jobId == "" ==> t.status == Failed && t.error == Some("Missing jobId"))
      && (jobId != "" && !OccursIn("-u", jobId) ==> t.status == Failed && t.error == Some("Not found"))
  {
  }
}
