/**
 * POST /api/generate (app/api/generate/route.ts) as a pure classifier: the
 * parsed request body, the three configuration variables and the outcome
 * of the one upstream call decide the response. The upstream call itself
 * is an input; `UpstreamCall` says whether it is made and with what.
 */
module GenerateRoute {
  import opened Wrappers

  /** The `prompt` field of the parsed body: missing or null, a string, or any other JSON value. */
  datatype PromptField = NoPrompt | PromptString(text: string) | PromptOther

  /**
   * The outcome of `await req.json()`: it throws, or it yields a body whose
   * prompt field is read and which is forwarded upstream as it is (`value`).
   */
  datatype RequestBody<J> = InvalidJson | Parsed(prompt: PromptField, value: J)

  /** `RUNPOD_BASE_URL`, `RUNPOD_ENDPOINT_ID` and `RUNPOD_API_KEY`; `None` when unset. */
  datatype Env = Env(baseUrl: Option<string>, endpointId: Option<string>, apiKey: Option<string>)

  /** The `id` field of the upstream JSON: missing or null, a string, or any other JSON value. */
  datatype IdField = NoId | IdString(id: string) | IdOther

  /** `JSON.parse(upstreamText)`: it throws, or it yields a value with an id field and a serialisation. */
  datatype UpstreamJson = NotJson | Json(id: IdField, serialized: string)

  /** What the upstream call produced: a thrown error (with its message, if any) or a reply. */
  datatype UpstreamOutcome =
    | TransportError(message: Option<string>)
    | Replied(ok: bool, status: nat, text: string, json: UpstreamJson)

  /** The request sent upstream. */
  datatype UpstreamRequest<J> = UpstreamRequest(url: string, authorization: string, body: J)

  /** The `upstream` diagnostic field of an error response. */
  datatype Echo = NoEcho | EchoText(text: string) | EchoJson(serialized: string)

  datatype ResponseBody =
    | Accepted(jobId: string)
    | Rejected(error: string, upstreamStatus: Option<nat>, upstream: Echo)

  datatype Response = Response(code: nat, body: ResponseBody)

  /** An optional string JavaScript treats as true. */

  /** `body?.prompt` is truthy and a string. */
  predicate HasPrompt(p: PromptField) { p.PromptString? && p.text != "" }

  predicate Configured(env: Env) { Truthy(env.baseUrl) && Truthy(env.endpointId) && Truthy(env.apiKey) }

  predicate PromptAccepted<J>(body: RequestBody<J>) { body.Parsed? && HasPrompt(body.prompt) }

  /** The upstream reply carries a usable job id: OK, JSON, and a non-empty string `id`. */
  predicate UsableReply(u: UpstreamOutcome) {
    u.Replied? && u.ok && u.json.Json? && u.json.id.IdString? && u.json.id.id != ""
  }

  const MisconfiguredMessage :=
    "Server not configured (missing RUNPOD_BASE_URL, RUNPOD_ENDPOINT_ID, or RUNPOD_API_KEY)"

  /** The upstream request the route sends, or `None` when it answers before sending one. */
  function UpstreamCall<J>(body: RequestBody<J>, env: Env): (call: Option<UpstreamRequest<J>>)
    ensures call.Some? <==> PromptAccepted(body) && Configured(env)
  {
    if PromptAccepted(body) && Configured(env) then
      Some(UpstreamRequest(env.baseUrl.value + "/" + env.endpointId.value + "/run",
                           "Bearer " + env.apiKey.value, body.value))
    else None
  }

  /** `POST` */
  function Post<J>(body: RequestBody<J>, env: Env, upstream: UpstreamOutcome): (r: Response)
    ensures r.code in {200, 400, 500, 502}
    ensures r.code == 200 <==> r.body.Accepted?
    ensures r.code == 400 <==> !PromptAccepted(body)
    ensures r.code == 500 <==> PromptAccepted(body) && !Configured(env)
    ensures r.code == 502 <==> UpstreamCall(body, env).Some? && !UsableReply(upstream)
    ensures r.body.Accepted? <==> UpstreamCall(body, env).Some? && UsableReply(upstream)
    ensures r.body.Accepted? ==> r.body.jobId == upstream.json.id.id
  {
    match body
    case InvalidJson => Response(400, Rejected("Invalid JSON body", None, NoEcho))
    case Parsed(prompt, _) =>
      if !HasPrompt(prompt) then Response(400, Rejected("Missing prompt", None, NoEcho))
      else if !Configured(env) then Response(500, Rejected(MisconfiguredMessage, None, NoEcho))
      else
        match upstream
        case TransportError(msg) => Response(502, Rejected(msg.GetOr("Upstream request failed"), None, NoEcho))
        case Replied(ok, status, text, json) =>
          if !ok then Response(502, Rejected("Upstream generate failed", Some(status), EchoText(text)))
          else
            match json
            case NotJson => Response(502, Rejected("Upstream returned non-JSON", None, EchoText(text)))
            case Json(id, serialized) =>
              if id.IdString? && id.id != "" then Response(200, Accepted(id.id))
              else Response(502, Rejected("Upstream did not return an id", None, EchoJson(serialized)))
  }

  /** A body that is not JSON is refused with 400 before anything else is looked at. */
  lemma InvalidJsonRejected<J>(env: Env, upstream: UpstreamOutcome)
    ensures Post<J>(InvalidJson, env, upstream) == Response(400, Rejected("Invalid JSON body", None, NoEcho))
    ensures UpstreamCall<J>(InvalidJson, env) == None
  {
  }

  /** A missing, empty or non-string prompt is refused with 400 "Missing prompt". */
  lemma MissingPromptRejected<J>(prompt: PromptField, value: J, env: Env, upstream: UpstreamOutcome)
    requires !HasPrompt(prompt)
    ensures Post(Parsed(prompt, value), env, upstream) == Response(400, Rejected("Missing prompt", None, NoEcho))
  {
  }

  /** A prompt of spaces is a non-empty string and passes the check: the route does not trim. */
  lemma BlankPromptPasses<J>(value: J, env: Env, upstream: UpstreamOutcome)
    requires Configured(env)
    ensures UpstreamCall(Parsed(PromptString(" "), value), env).Some?
    ensures Post(Parsed(PromptString(" "), value), env, upstream).code != 400
  {
  }

  /** Without the full configuration the answer is 500, and no upstream request is made. */
  lemma MisconfigurationRejected<J>(text: string, value: J, env: Env, upstream: UpstreamOutcome)
    requires text != "" && !Configured(env)
    ensures Post(Parsed(PromptString(text), value), env, upstream) ==
            Response(500, Rejected(MisconfiguredMessage, None, NoEcho))
    ensures UpstreamCall(Parsed(PromptString(text), value), env) == None
  {
  }

  /** Whenever the route answers without calling upstream, the upstream outcome cannot matter. */
  lemma EarlyAnswersIgnoreUpstream<J>(body: RequestBody<J>, env: Env, u1: UpstreamOutcome, u2: UpstreamOutcome)
    requires UpstreamCall(body, env) == None
    ensures Post(body, env, u1) == Post(body, env, u2)
  {
  }

  /** The request goes to base + "/" + endpoint + "/run", with the key as bearer token and the body unchanged. */
  lemma UpstreamRequestShape<J>(body: RequestBody<J>, env: Env)
    requires UpstreamCall(body, env).Some?
    ensures var call := UpstreamCall(body, env).value;
      && call.url == env.baseUrl.value + "/" + env.endpointId.value + "/run"
      && call.authorization == "Bearer " + env.apiKey.value
      && call.body == body.value
  {
  }

  /** A non-OK upstream reply gives 502 with the upstream status and raw text. */
  lemma UpstreamNotOk<J>(body: RequestBody<J>, env: Env, status: nat, text: string, json: UpstreamJson)
    requires UpstreamCall(body, env).Some?
    ensures Post(body, env, Replied(false, status, text, json)) ==
            Response(502, Rejected("Upstream generate failed", Some(status), EchoText(text)))
  {
  }

  /** An OK reply that is not JSON, or has no usable id, gives 502. */
  lemma UpstreamMalformed<J>(body: RequestBody<J>, env: Env, status: nat, text: string, json: UpstreamJson)
    requires UpstreamCall(body, env).Some?
    ensures json.NotJson? ==>
              Post(body, env, Replied(true, status, text, json)) ==
              Response(502, Rejected("Upstream returned non-JSON", None, EchoText(text)))
    ensures json.Json? && !(json.id.IdString? && json.id.id != "") ==>
              Post(body, env, Replied(true, status, text, json)) ==
              Response(502, Rejected("Upstream did not return an id", None, EchoJson(json.serialized)))
  {
  }

  /** A thrown upstream error gives 502 with its message, or "Upstream request failed" when it has none. */
  lemma TransportFailure<J>(body: RequestBody<J>, env: Env, message: Option<string>)
    requires UpstreamCall(body, env).Some?
    ensures Post(body, env, TransportError(message)) ==
            Response(502, Rejected(if message.Some? then message.value else "Upstream request failed", None, NoEcho))
  {
  }
}
