/**
 * The image page (app/page.tsx) as an object: each React state cell and ref
 * is a field, and each handler is a method that updates the fields step by
 * step in the order the handler does. Every method is proved to produce the
 * state the corresponding `Lifecycle` function describes and to keep
 * `Lifecycle.Valid`.
 */
module PageController {
  import opened Wrappers
  import opened JsText
  import opened PageValues
  import opened Lifecycle

  class Page {
    var prompt: string
    var negativePrompt: string
    var params: UiParams
    var jobId: Option<string>
    var status: Status
    var error: Option<string>
    var imageDataUrl: Option<string>
    var history: seq<HistoryItem>
    /** `pollTimerRef`: the running interval and the ids its ticks poll for. */
    var pollTimer: Option<PollTarget>
    /** Whether `abortRef` holds an `AbortController`. */
    var hasAbortController: bool

    /** The fields as one value. */
    function State(): PageState
      reads this
    {
      PageState(prompt, negativePrompt, params, jobId, status, error, imageDataUrl, history,
                pollTimer, hasAbortController)
    }

    ghost predicate Valid()
      reads this
    {
      Lifecycle.Valid(State())
    }

    /** The page as first rendered. */
    constructor ()
      ensures State() == Initial && Valid()
    {
      prompt, negativePrompt, params := "", "", DefaultParams;
      jobId, status, error, imageDataUrl := None, Idle, None, None;
      history, pollTimer, hasAbortController := [], None, false;
      InitialValid();
    }

    /** `busy`: exactly when cancelling would have an effect. */
    function Busy(): (r: bool)
      reads this
      ensures r <==> Lifecycle.Cancel(State()) != State()
    {
      status == Queued || status == InProgress
    }

    /** `canGenerate`: no job queued or running, and a prompt that is not blank. */
    function CanGenerate(): (r: bool)
      reads this
      ensures r <==> status != Queued && status != InProgress && !AllWhitespace(prompt)
    {
      TrimEmptyIffWhitespace(prompt);
      !Busy() && |Trim(prompt)| > 0
    }

    /** The `onChange` handlers of the prompt fields and parameter controls. */
    method EditInputs(newPrompt: string, newNegativePrompt: string, newParams: UiParams)
      requires Valid()
      modifies this
      ensures Valid()
      ensures State() == Lifecycle.EditInputs(old(State()), newPrompt, newNegativePrompt, newParams)
    {
      prompt, negativePrompt, params := newPrompt, newNegativePrompt, newParams;
    }

    /** `clearPoll` */
    method ClearPoll()
      modifies this
      ensures State() == old(State()).(pollTimer := None)
    {
      pollTimer := None;
    }

    /** `pushHistory` */
    method PushHistory(item: HistoryItem)
      modifies this
      ensures State() == old(State()).(history := PageValues.PushHistory(old(history), item))
    {
      history := PageValues.PushHistory(history, item);
    }

    /** `updateHistoryItem` */
    method UpdateHistoryItem(id: string, patch: HistoryPatch)
      modifies this
      ensures State() == old(State()).(history := PageValues.UpdateHistoryItem(old(history), id, patch))
    {
      history := PageValues.UpdateHistoryItem(history, id, patch);
    }

    /** Status FAILED with `msg` on the page and on the entry. */
    method SetFailed(historyId: string, msg: string)
      modifies this
      ensures State() == old(State()).(status := Failed, error := Some(msg),
                                       history := PageValues.UpdateHistoryItem(old(history), historyId, FailurePatch(msg)))
    {
      status := Failed;
      error := Some(msg);
      UpdateHistoryItem(historyId, FailurePatch(msg));
    }

    /**
     * `onGenerate` up to the request. Returns the body it posts to
     * /api/generate, or `None` when the guard stops it and nothing is sent.
     */
    method Generate(historyId: string, createdAt: int) returns (sent: Option<GeneratePayload>)
      requires Valid()
      modifies this
      ensures Valid()
      ensures State() == Lifecycle.Generate(old(State()), historyId, createdAt)
      ensures sent == if Lifecycle.CanGenerate(old(State())) then Some(Payload(old(State()))) else None
    {
      ghost var s0 := State();
      var allowed := !Busy() && |Trim(prompt)| > 0;
      assert allowed == Lifecycle.CanGenerate(s0);
      if !allowed {
        return None;
      }
      ClearPoll();
      hasAbortController := true;
      error := None;
      imageDataUrl := None;
      var normalized := NormalizeParams(params);
      var trimmed, trimmedNegative := Trim(prompt), Trim(negativePrompt);
      var item := HistoryItem(historyId, createdAt, trimmed, trimmedNegative, None, Queued, None, normalized);
      assert item == NewEntry(s0, historyId, createdAt);
      PushHistory(item);
      status := Queued;
      sent := Some(GeneratePayload(trimmed, trimmedNegative, normalized.aspect, normalized.steps,
                                   normalized.guidance, normalized.seed, 1, "png"));
      assert sent == Some(Payload(s0));
      assert State() == Lifecycle.Generate(s0, historyId, createdAt);
      StepKeepsValid(s0, GenerateClicked(historyId, createdAt));
    }

    /** `startPolling`: the first poll is sent and the interval replaces any previous one. */
    method StartPolling(jid: string, historyId: string)
      modifies this
      ensures State() == Lifecycle.StartPolling(old(State()), jid, historyId)
    {
      ClearPoll();
      pollTimer := Some(PollTarget(jid, historyId));
    }

    /** The rest of `onGenerate`, once /api/generate has answered. */
    method GenerateReplied(historyId: string, reply: GenerateReply)
      requires Valid()
      modifies this
      ensures Valid()
      ensures State() == Lifecycle.GenerateReplied(old(State()), historyId, reply)
    {
      ghost var s0 := State();
      match reply {
        case GenerateNotOk(err, code) =>
          var msg := MessageOr(err, "Generate request failed (" + NatToString(code) + ")");
          SetFailed(historyId, msg);
          ClearPoll();
        case GenerateOk(jid) =>
          jobId := Some(jid);
          status := InProgress;
          UpdateHistoryItem(historyId, StatusPatch(InProgress));
          StartPolling(jid, historyId);
      }
      StepKeepsValid(s0, GenerateAnswered(historyId, reply));
    }

    /** `pollStatus`, once /api/status has answered. */
    method PollReplied(historyId: string, reply: StatusReply)
      requires Valid()
      modifies this
      ensures Valid()
      ensures State() == Lifecycle.PollReplied(old(State()), historyId, reply)
    {
      ghost var s0 := State();
      match reply {
        case StatusNotOk(err, code) =>
          var msg := MessageOr(err, "Status request failed (" + NatToString(code) + ")");
          SetFailed(historyId, msg);
          ClearPoll();
        case StatusOk(name, b64, err) =>
          var s := ParseStatus(name);
          if s == Queued || s == InProgress {
            status := s;
            UpdateHistoryItem(historyId, StatusPatch(s));
          } else if s == Completed {
            if !Truthy(b64) {
              SetFailed(historyId, "COMPLETED but no image_b64 in output");
              ClearPoll();
            } else {
              var url := PngPrefix + b64.value;
              imageDataUrl := Some(url);
              status := Completed;
              error := None;
              UpdateHistoryItem(historyId, HistoryPatch(Some(Completed), None, Some(url)));
              ClearPoll();
            }
          } else {
            var msg := MessageOr(err, "Generation failed");
            status := s;
            error := Some(msg);
            UpdateHistoryItem(historyId, HistoryPatch(Some(s), Some(msg), None));
            ClearPoll();
          }
      }
      PollRepliedKeepsValid(s0, historyId, reply);
    }

    /**
     * The `catch` attached to a poll: `fromInterval` tells the interval's
     * handler, which clears the interval, from the first poll's, which does not.
     */
    method PollRejected(historyId: string, message: Option<string>, fromInterval: bool)
      requires Valid()
      modifies this
      ensures Valid()
      ensures State() == Lifecycle.PollRejected(old(State()), historyId, message, fromInterval)
    {
      ghost var s0 := State();
      SetFailed(historyId, MessageOr(message, "Polling error"));
      if fromInterval {
        ClearPoll();
      }
      StepKeepsValid(s0, PollRequestRejected(historyId, message, fromInterval));
    }

    /** `onCancel` */
    method Cancel()
      requires Valid()
      modifies this
      ensures Valid()
      ensures State() == Lifecycle.Cancel(old(State()))
    {
      if !Busy() {
        return;
      }
      hasAbortController := false;
      ClearPoll();
      status := Cancelled;
      error := Some("Cancelled locally");
    }

    /** `resetJobState` */
    method Reset()
      requires Valid()
      modifies this
      ensures Valid()
      ensures State() == Lifecycle.Reset(old(State()))
    {
      ClearPoll();
      hasAbortController := false;
      jobId := None;
      status := Idle;
      error := None;
      imageDataUrl := None;
    }

    /** `onUseHistory`, clicked on an entry of the history. */
    method UseHistory(h: HistoryItem)
      requires Valid() && h in history
      modifies this
      ensures Valid()
      ensures State() == Lifecycle.UseHistory(old(State()), h)
    {
      ghost var s0 := State();
      prompt := h.prompt;
      negativePrompt := h.negativePrompt;
      params := h.params;
      if Truthy(h.imageDataUrl) {
        imageDataUrl := h.imageDataUrl;
      }
      error := if Truthy(h.error) then h.error else None;
      status := if h.status == Completed then Completed else Idle;
      jobId := None;
      ClearPoll();
      assert State() == Lifecycle.UseHistory(s0, h);
      UseHistoryKeepsValid(s0, h);
    }

    /** `statusLabel` of the current status. */
    function StatusLabel(): (shown: string)
      requires Valid()
      reads this
      ensures status.Other? ==> shown == status.name
      ensures !status.Other? ==> StatusOfLabel(shown) == Some(status)
    {
      PageValues.StatusLabel(status)
    }
  }

  /** A client of the class: the busy guard holds while a job is in flight, and cancel then abort ends FAILED. */
  method CancelDuringPoll(prompt: string, historyId: string, createdAt: int, jobId: string,
                          abortMessage: Option<string>)
    returns (page: Page)
    requires !AllWhitespace(prompt)
    ensures page.status == Failed && page.pollTimer == None
    ensures |page.history| == 1 && page.history[0].status == Failed
  {
    page := new Page();
    page.EditInputs(prompt, "", DefaultParams);
    CanGenerateIff(page.State());
    var sent := page.Generate(historyId, createdAt);
    assert sent.Some?;
    var again := page.Generate(historyId, createdAt);
    assert again == None && |page.history| == 1;
    page.GenerateReplied(historyId, GenerateOk(jobId));
    page.Cancel();
    assert page.status == Cancelled && page.history[0].status == InProgress;
    page.PollRejected(historyId, abortMessage, true);
  }
}
