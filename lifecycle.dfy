/**
 * The job lifecycle of the image page (app/page.tsx) as a state machine on
 * values. `PageState` holds the page's state cells and refs; each event of the
 * page (a click, a network reply, a rejected request) is a function from the
 * state before to the state after. The class `PageController.Page` performs
 * the same steps on mutable fields and is proved to agree with these functions.
 *
 * Network replies, timer ticks and aborts are inputs: an asynchronous
 * continuation becomes an event that carries the ids its closure captured.
 */
module Lifecycle {
  import opened Wrappers
  import opened JsText
  import opened PageValues

  /** A reply of POST /api/generate as the page reads it; `code` is the HTTP status. */
  datatype GenerateReply =
    | GenerateNotOk(error: Option<string>, code: nat)
    | GenerateOk(jobId: string)

  /** A reply of GET /api/status as the page reads it; `status` is the raw status string. */
  datatype StatusReply =
    | StatusNotOk(error: Option<string>, code: nat)
    | StatusOk(status: string, imageB64: Option<string>, error: Option<string>)

  /** The polling interval held in `pollTimerRef`, with the ids each tick polls for. */
  datatype PollTarget = PollTarget(jobId: string, historyId: string)

  /** The JSON body the page posts to /api/generate. */
  datatype GeneratePayload = GeneratePayload(
    prompt: string,
    negativePrompt: string,
    aspect: Aspect,
    steps: int,
    guidance: int,
    seed: Option<int>,
    numImages: nat,
    format: string)

  /**
   * The page's state: the prompt inputs and parameters, the job cells
   * (`jobId`, `status`, `error`, `imageDataUrl`), the history, the polling
   * interval (`pollTimerRef`) and whether `abortRef` holds a controller.
   */
  datatype PageState = PageState(
    prompt: string,
    negativePrompt: string,
    params: UiParams,
    jobId: Option<string>,
    status: Status,
    error: Option<string>,
    imageDataUrl: Option<string>,
    history: seq<HistoryItem>,
    pollTimer: Option<PollTarget>,
    hasAbortController: bool)

  const Initial := PageState("", "", DefaultParams, None, Idle, None, None, [], None, false)

  const PngPrefix := "data:image/png;base64,"

  /** `o || fallback` on an optional string. */
  function MessageOr(o: Option<string>, fallback: string): string {
    if Truthy(o) then o.value else fallback
  }

  predicate Busy(s: PageState) { s.status == Queued || s.status == InProgress }

  /** `canGenerate` */
  predicate CanGenerate(s: PageState) { !Busy(s) && |Trim(s.prompt)| > 0 }

  function StatusPatch(st: Status): HistoryPatch { HistoryPatch(Some(st), None, None) }

  function FailurePatch(msg: string): HistoryPatch { HistoryPatch(Some(Failed), Some(msg), None) }

  /** The entry `onGenerate` pushes for a new job. */
  function NewEntry(s: PageState, historyId: string, createdAt: int): HistoryItem {
    HistoryItem(historyId, createdAt, Trim(s.prompt), Trim(s.negativePrompt), None, Queued, None,
                NormalizeParams(s.params))
  }

  /** The body `onGenerate` sends; an empty seed is left out. */
  function Payload(s: PageState): GeneratePayload {
    var p := NormalizeParams(s.params);
    GeneratePayload(Trim(s.prompt), Trim(s.negativePrompt), p.aspect, p.steps, p.guidance, p.seed, 1, "png")
  }

  /* ---------- One function per event ---------- */

  /** Typing in the prompt fields or changing a parameter. */
  function EditInputs(s: PageState, prompt: string, negativePrompt: string, params: UiParams): PageState {
    s.(prompt := prompt, negativePrompt := negativePrompt, params := params)
  }

  /** `onGenerate` up to the request: the guard, the new history entry and status QUEUED. */
  function Generate(s: PageState, historyId: string, createdAt: int): PageState {
    if !CanGenerate(s) then s
    else
      s.(pollTimer := None, hasAbortController := true, error := None, imageDataUrl := None,
         history := PushHistory(s.history, NewEntry(s, historyId, createdAt)), status := Queued)
  }

  /** Status FAILED with message `msg` on the state and on the entry; optionally `clearPoll()`. */
  function Fail(s: PageState, historyId: string, msg: string, clearPoll: bool): PageState {
    s.(status := Failed, error := Some(msg),
       history := UpdateHistoryItem(s.history, historyId, FailurePatch(msg)),
       pollTimer := if clearPoll then None else s.pollTimer)
  }

  /** `startPolling`: replace any interval by one for this job (the first poll is then in flight). */
  function StartPolling(s: PageState, jobId: string, historyId: string): PageState {
    s.(pollTimer := Some(PollTarget(jobId, historyId)))
  }

  /** The rest of `onGenerate`, once the reply of /api/generate has arrived. */
  function GenerateReplied(s: PageState, historyId: string, reply: GenerateReply): PageState {
    match reply
    case GenerateNotOk(err, code) =>
      Fail(s, historyId, MessageOr(err, "Generate request failed (" + NatToString(code) + ")"), true)
    case GenerateOk(jid) =>
      var t := s.(jobId := Some(jid), status := InProgress,
                  history := UpdateHistoryItem(s.history, historyId, StatusPatch(InProgress)));
      StartPolling(t, jid, historyId)
  }

  /** `pollStatus` once its reply has arrived. */
  function PollReplied(s: PageState, historyId: string, reply: StatusReply): PageState {
    match reply
    case StatusNotOk(err, code) =>
      Fail(s, historyId, MessageOr(err, "Status request failed (" + NatToString(code) + ")"), true)
    case StatusOk(name, b64, err) =>
      var st := ParseStatus(name);
      if st == Queued || st == InProgress then
        s.(status := st, history := UpdateHistoryItem(s.history, historyId, StatusPatch(st)))
      else if st == Completed then
        if !Truthy(b64) then
          Fail(s, historyId, "COMPLETED but no image_b64 in output", true)
        else
          var url := PngPrefix + b64.value;
          s.(imageDataUrl := Some(url), status := Completed, error := None,
             history := UpdateHistoryItem(s.history, historyId, HistoryPatch(Some(Completed), None, Some(url))),
             pollTimer := None)
      else
        var msg := MessageOr(err, "Generation failed");
        s.(status := st, error := Some(msg),
           history := UpdateHistoryItem(s.history, historyId, HistoryPatch(Some(st), Some(msg), None)),
           pollTimer := None)
  }

  /**
   * The `catch` of a poll whose request or reply parsing failed (an abort
   * included). Only the handler of the interval's polls clears the interval.
   */
  function PollRejected(s: PageState, historyId: string, message: Option<string>, fromInterval: bool): PageState {
    Fail(s, historyId, MessageOr(message, "Polling error"), fromInterval)
  }

  /** `onCancel` */
  function Cancel(s: PageState): PageState {
    if !Busy(s) then s
    else s.(hasAbortController := false, pollTimer := None, status := Cancelled, error := Some("Cancelled locally"))
  }

  /** `resetJobState` */
  function Reset(s: PageState): PageState {
    s.(pollTimer := None, hasAbortController := false, jobId := None, status := Idle, error := None, imageDataUrl := None)
  }

  /** `onUseHistory` */
  function UseHistory(s: PageState, h: HistoryItem): PageState {
    s.(prompt := h.prompt, negativePrompt := h.negativePrompt, params := h.params,
       imageDataUrl := if Truthy(h.imageDataUrl) then h.imageDataUrl else s.imageDataUrl,
       error := if Truthy(h.error) then h.error else None,
       status := if h.status == Completed then Completed else Idle,
       jobId := None, pollTimer := None)
  }

  /* ---------- Events and runs ---------- */

  datatype Event =
    | InputsEdited(prompt: string, negativePrompt: string, params: UiParams)
    | GenerateClicked(historyId: string, createdAt: int)
    | GenerateAnswered(historyId: string, generateReply: GenerateReply)
    | GenerateRequestRejected
    | PollAnswered(historyId: string, statusReply: StatusReply)
    | PollRequestRejected(historyId: string, message: Option<string>, fromInterval: bool)
    | CancelClicked
    | ResetClicked
    | HistoryClicked(entry: HistoryItem)

  /**
   * One event. A rejected /api/generate request has no handler in the page,
   * so it changes nothing.
   */
  function Step(s: PageState, e: Event): PageState {
    match e
    case InputsEdited(p, n, q) => EditInputs(s, p, n, q)
    case GenerateClicked(h, at) => Generate(s, h, at)
    case GenerateAnswered(h, r) => GenerateReplied(s, h, r)
    case GenerateRequestRejected => s
    case PollAnswered(h, r) => PollReplied(s, h, r)
    case PollRequestRejected(h, m, i) => PollRejected(s, h, m, i)
    case CancelClicked => Cancel(s)
    case ResetClicked => Reset(s)
    case HistoryClicked(h) => UseHistory(s, h)
  }

  function Run(s: PageState, es: seq<Event>): PageState
    decreases |es|
  {
    if es == [] then s else Run(Step(s, es[0]), es[1..])
  }

  /** The page only ever offers entries of its current history for reuse. */
  predicate Admissible(s: PageState, e: Event) {
    e.HistoryClicked? ==> e.entry in s.history
  }

  predicate AdmissibleRun(s: PageState, es: seq<Event>)
    decreases |es|
  {
    es == [] || (Admissible(s, es[0]) && AdmissibleRun(Step(s, es[0]), es[1..]))
  }

  /* ---------- The invariant ---------- */

  predicate IsPngDataUrl(o: Option<string>) {
    o.Some? && |o.value| > |PngPrefix| && o.value[..|PngPrefix|] == PngPrefix
  }

  /** A completed entry always carries its image. */
  predicate EntryValid(h: HistoryItem) {
    WellFormedStatus(h.status) && (h.status == Completed ==> IsPngDataUrl(h.imageDataUrl))
  }

  predicate PatchValid(p: HistoryPatch) {
    (p.status.Some? ==> WellFormedStatus(p.status.value)) &&
    (p.status == Some(Completed) ==> p.imageDataUrl.Some?) &&
    (p.imageDataUrl.Some? ==> IsPngDataUrl(p.imageDataUrl))
  }

  /**
   * Holds in every state the page reaches: at most twelve entries, statuses
   * well formed, and COMPLETED never without an image, on the page or in
   * the history.
   */
  predicate Valid(s: PageState) {
    |s.history| <= HistoryLimit &&
    WellFormedStatus(s.status) &&
    (s.status == Completed ==> IsPngDataUrl(s.imageDataUrl)) &&
    forall i :: 0 <= i < |s.history| ==> EntryValid(s.history[i])
  }

  lemma InitialValid()
    ensures Valid(Initial) && !Busy(Initial) && !CanGenerate(Initial)
  {
    TrimEmptyIffWhitespace("");
  }

  /** Patching entries with a valid patch keeps every entry valid. */
  lemma UpdateKeepsEntriesValid(hs: seq<HistoryItem>, id: string, p: HistoryPatch)
    requires forall i :: 0 <= i < |hs| ==> EntryValid(hs[i])
    requires PatchValid(p)
    ensures forall i :: 0 <= i < |hs| ==> EntryValid(UpdateHistoryItem(hs, id, p)[i])
  {
    var r := UpdateHistoryItem(hs, id, p);
    forall i | 0 <= i < |hs| ensures EntryValid(r[i]) {
      if hs[i].id == id {
        assert r[i] == ApplyPatch(hs[i], p);
      }
    }
  }

  lemma FailKeepsValid(s: PageState, historyId: string, msg: string, clearPoll: bool)
    requires Valid(s)
    ensures Valid(Fail(s, historyId, msg, clearPoll))
  {
    UpdateKeepsEntriesValid(s.history, historyId, FailurePatch(msg));
  }

  /** Every event the page can receive keeps the invariant. */
  lemma StepKeepsValid(s: PageState, e: Event)
    requires Valid(s) && Admissible(s, e)
    ensures Valid(Step(s, e))
  {
    match e
    case InputsEdited(p, n, q) =>
    case GenerateClicked(h, at) =>
      if CanGenerate(s) {
        var t := Step(s, e);
        var item := NewEntry(s, h, at);
        forall i | 0 <= i < |t.history| ensures EntryValid(t.history[i]) {
          if i > 0 {
            assert t.history[i] == t.history[1..][i - 1];
          }
        }
      }
    case GenerateAnswered(h, r) =>
      match r {
        case GenerateNotOk(err, code) =>
          FailKeepsValid(s, h, MessageOr(err, "Generate request failed (" + NatToString(code) + ")"), true);
        case GenerateOk(jid) =>
          UpdateKeepsEntriesValid(s.history, h, StatusPatch(InProgress));
      }
    case GenerateRequestRejected =>
    case PollAnswered(h, r) =>
      PollRepliedKeepsValid(s, h, r);
    case PollRequestRejected(h, m, i) =>
      FailKeepsValid(s, h, MessageOr(m, "Polling error"), i);
    case CancelClicked =>
    case ResetClicked =>
    case HistoryClicked(h) =>
      UseHistoryKeepsValid(s, h);
  }

  /** Restoring an entry of the history keeps the invariant: a COMPLETED entry brings its image. */
  lemma UseHistoryKeepsValid(s: PageState, h: HistoryItem)
    requires Valid(s) && h in s.history
    ensures Valid(UseHistory(s, h))
  {
    var k :| 0 <= k < |s.history| && s.history[k] == h;
    assert EntryValid(h);
  }

  lemma PollRepliedKeepsValid(s: PageState, historyId: string, reply: StatusReply)
    requires Valid(s)
    ensures Valid(PollReplied(s, historyId, reply))
  {
    match reply
    case StatusNotOk(err, code) =>
      FailKeepsValid(s, historyId, MessageOr(err, "Status request failed (" + NatToString(code) + ")"), true);
    case StatusOk(name, b64, err) =>
      var st := ParseStatus(name);
      if st == Queued || st == InProgress {
        UpdateKeepsEntriesValid(s.history, historyId, StatusPatch(st));
      } else if st == Completed {
        if !Truthy(b64) {
          FailKeepsValid(s, historyId, "COMPLETED but no image_b64 in output", true);
        } else {
          var url := PngPrefix + b64.value;
          assert url[..|PngPrefix|] == PngPrefix;
          UpdateKeepsEntriesValid(s.history, historyId, HistoryPatch(Some(Completed), None, Some(url)));
        }
      } else {
        UpdateKeepsEntriesValid(s.history, historyId, HistoryPatch(Some(st), Some(MessageOr(err, "Generation failed")), None));
      }
  }

  /** The invariant holds after any run of events the page can receive. */
  lemma {:induction false} RunKeepsValid(s: PageState, es: seq<Event>)
    requires Valid(s) && AdmissibleRun(s, es)
    ensures Valid(Run(s, es))
    decreases |es|
  {
    if es != [] {
      StepKeepsValid(s, es[0]);
      RunKeepsValid(Step(s, es[0]), es[1..]);
    }
  }

  /* ---------- Properties of single events ---------- */

  /** The busy guard: a job may start only when none is queued or running and the prompt is not blank. */
  lemma CanGenerateIff(s: PageState)
    ensures CanGenerate(s) <==> s.status != Queued && s.status != InProgress && !AllWhitespace(s.prompt)
  {
    TrimEmptyIffWhitespace(s.prompt);
  }

  /**
   * `onGenerate`: when blocked it changes nothing; otherwise it pushes a
   * QUEUED entry with the trimmed prompt and normalised parameters, sets
   * QUEUED, clears error, image and interval and arms a fresh abort
   * controller, keeping the previous job id until the reply.
   */
  lemma GenerateEffect(s: PageState, historyId: string, createdAt: int)
    ensures var t := Generate(s, historyId, createdAt);
      && (!CanGenerate(s) ==> t == s)
      && (CanGenerate(s) ==>
            && t.status == Queued && Busy(t) && !CanGenerate(t)
            && t.history[0] == HistoryItem(historyId, createdAt, Trim(s.prompt), Trim(s.negativePrompt),
                                           None, Queued, None, NormalizeParams(s.params))
            && t.history[0].prompt != []
            && t.history[1..] == s.history[..Min(|s.history|, HistoryLimit - 1)]
            && t.error == None && t.imageDataUrl == None && t.pollTimer == None
            && t.hasAbortController && t.jobId == s.jobId
            && t.prompt == s.prompt && t.negativePrompt == s.negativePrompt && t.params == s.params)
  {
  }

  /** A not-ok reply to the request fails the job with the server's message or a coded fallback, and starts no polling. */
  lemma GenerateRejectedByServer(s: PageState, historyId: string, err: Option<string>, code: nat)
    ensures var t := GenerateReplied(s, historyId, GenerateNotOk(err, code));
      && t.status == Failed && t.pollTimer == None
      && t.error == Some(if Truthy(err) then err.value else "Generate request failed (" + NatToString(code) + ")")
      && t.history == UpdateHistoryItem(s.history, historyId, FailurePatch(t.error.value))
      && t.jobId == s.jobId && t.imageDataUrl == s.imageDataUrl
  {
  }

  /** An ok reply records the job id, marks state and entry IN_PROGRESS and starts the one polling interval for that job. */
  lemma GenerateAcceptedStartsPolling(s: PageState, historyId: string, jobId: string)
    ensures var t := GenerateReplied(s, historyId, GenerateOk(jobId));
      && t.jobId == Some(jobId) && t.status == InProgress
      && t.history == UpdateHistoryItem(s.history, historyId, StatusPatch(InProgress))
      && t.pollTimer == Some(PollTarget(jobId, historyId))
      && t.error == s.error && t.imageDataUrl == s.imageDataUrl
  {
  }

  /** A not-ok status reply fails the job with the server's message or a coded fallback and stops polling. */
  lemma PollNotOkFails(s: PageState, historyId: string, err: Option<string>, code: nat)
    ensures var t := PollReplied(s, historyId, StatusNotOk(err, code));
      && t.status == Failed && t.pollTimer == None
      && t.error == Some(if Truthy(err) then err.value else "Status request failed (" + NatToString(code) + ")")
      && t.history == UpdateHistoryItem(s.history, historyId, FailurePatch(t.error.value))
  {
  }

  /** QUEUED and IN_PROGRESS are copied to state and entry, and polling goes on. */
  lemma PollPendingKeepsPolling(s: PageState, historyId: string, name: string, b64: Option<string>, err: Option<string>)
    requires name == "QUEUED" || name == "IN_PROGRESS"
    ensures var t := PollReplied(s, historyId, StatusOk(name, b64, err));
      && StatusName(t.status) == name && Busy(t)
      && t.history == UpdateHistoryItem(s.history, historyId, StatusPatch(t.status))
      && t.pollTimer == s.pollTimer && t.error == s.error && t.imageDataUrl == s.imageDataUrl
  {
  }

  /** COMPLETED with an image shows it as a PNG data URL, clears the error and stops polling. */
  lemma PollCompletedWithImage(s: PageState, historyId: string, b64: string, err: Option<string>)
    requires b64 != ""
    ensures var t := PollReplied(s, historyId, StatusOk("COMPLETED", Some(b64), err));
      && t.status == Completed && t.imageDataUrl == Some("data:image/png;base64," + b64)
      && t.error == None && t.pollTimer == None
      && t.history == UpdateHistoryItem(s.history, historyId,
                                        HistoryPatch(Some(Completed), None, Some("data:image/png;base64," + b64)))
  {
  }

  /** COMPLETED without an image is never a silent success: it ends FAILED. */
  lemma PollCompletedWithoutImage(s: PageState, historyId: string, b64: Option<string>, err: Option<string>)
    requires !Truthy(b64)
    ensures var t := PollReplied(s, historyId, StatusOk("COMPLETED", b64, err));
      && t.status == Failed && t.error == Some("COMPLETED but no image_b64 in output")
      && t.history == UpdateHistoryItem(s.history, historyId, FailurePatch(t.error.value))
      && t.pollTimer == None && t.imageDataUrl == s.imageDataUrl
  {
  }

  /** Any other status string is copied in as it is, with the reply's error or "Generation failed", and polling stops. */
  lemma PollOtherStatusStops(s: PageState, historyId: string, name: string, b64: Option<string>, err: Option<string>)
    requires name != "QUEUED" && name != "IN_PROGRESS" && name != "COMPLETED"
    ensures var t := PollReplied(s, historyId, StatusOk(name, b64, err));
      && StatusName(t.status) == name && !Busy(t) && t.status != Completed
      && t.error == Some(if Truthy(err) then err.value else "Generation failed")
      && t.history == UpdateHistoryItem(s.history, historyId, HistoryPatch(Some(t.status), t.error, None))
      && t.pollTimer == None && t.imageDataUrl == s.imageDataUrl
  {
  }

  /** Every status reply that is not QUEUED or IN_PROGRESS stops polling; those two leave the interval alone. */
  lemma PollStopsUnlessPending(s: PageState, historyId: string, reply: StatusReply)
    ensures var t := PollReplied(s, historyId, reply);
      (Busy(t) ==> t.pollTimer == s.pollTimer) && (!Busy(t) ==> t.pollTimer == None)
  {
  }

  /** A rejected poll fails the job; only the interval's handler stops the interval. */
  lemma PollRejectedEffect(s: PageState, historyId: string, message: Option<string>, fromInterval: bool)
    ensures var t := PollRejected(s, historyId, message, fromInterval);
      && t.status == Failed
      && t.error == Some(if Truthy(message) then message.value else "Polling error")
      && t.history == UpdateHistoryItem(s.history, historyId, FailurePatch(t.error.value))
      && t.pollTimer == (if fromInterval then None else s.pollTimer)
  {
  }

  /** `onCancel`: nothing unless busy; then CANCELLED locally, interval and abort handle dropped, history untouched. */
  lemma CancelEffect(s: PageState)
    ensures var t := Cancel(s);
      && (!Busy(s) ==> t == s)
      && (Busy(s) ==>
            && t.status == Cancelled && t.error == Some("Cancelled locally")
            && t.pollTimer == None && !t.hasAbortController
            && t.history == s.history && t.jobId == s.jobId && t.imageDataUrl == s.imageDataUrl)
  {
  }

  /** `resetJobState`: back to IDLE with no job, error or image, no interval or abort handle; history kept. */
  lemma ResetEffect(s: PageState)
    ensures var t := Reset(s);
      && t.status == Idle && t.jobId == None && t.error == None && t.imageDataUrl == None
      && t.pollTimer == None && !t.hasAbortController
      && t.history == s.history && t.prompt == s.prompt && t.params == s.params
  {
  }

  /**
   * `onUseHistory`: restores prompt, negative prompt and parameters, shows a
   * completed entry as COMPLETED and any other as IDLE, keeps the current
   * image unless the entry has one, and stops polling without aborting.
   */
  lemma UseHistoryEffect(s: PageState, h: HistoryItem)
    ensures var t := UseHistory(s, h);
      && t.prompt == h.prompt && t.negativePrompt == h.negativePrompt && t.params == h.params
      && t.status == (if h.status == Completed then Completed else Idle)
      && t.imageDataUrl == (if Truthy(h.imageDataUrl) then h.imageDataUrl else s.imageDataUrl)
      && t.error == (if Truthy(h.error) then h.error else None)
      && t.jobId == None && t.pollTimer == None
      && t.history == s.history && t.hasAbortController == s.hasAbortController
      && (EntryValid(h) && h.status == Completed ==> t.imageDataUrl == h.imageDataUrl)
  {
  }

  /* ---------- Properties of event sequences ---------- */

  /**
   * CANCELLED is not final: the abort `onCancel` performs rejects an
   * in-flight poll, and its handler turns the cancelled job into FAILED.
   */
  lemma CancelIsNotFinal(s: PageState, historyId: string, message: Option<string>, fromInterval: bool)
    requires Busy(s)
    ensures Cancel(s).status == Cancelled
    ensures PollRejected(Cancel(s), historyId, message, fromInterval).status == Failed
  {
  }

  /**
   * The handler of the first poll does not clear the interval: after the
   * first poll fails, the interval keeps polling, and its next QUEUED reply
   * takes the job from FAILED back to QUEUED.
   */
  lemma FirstPollFailureKeepsPolling(s: PageState, historyId: string, jobId: string, message: Option<string>,
                                     b64: Option<string>, err: Option<string>)
    ensures var t := PollRejected(GenerateReplied(s, historyId, GenerateOk(jobId)), historyId, message, false);
      && t.status == Failed && t.pollTimer == Some(PollTarget(jobId, historyId))
      && PollReplied(t, historyId, StatusOk("QUEUED", b64, err)).status == Queued
  {
  }

  /**
   * `resetJobState` is not final either: its abort rejects the poll in
   * flight, and that poll's handler turns IDLE into FAILED.
   */
  lemma ResetIsNotFinal(s: PageState, historyId: string, message: Option<string>, fromInterval: bool)
    ensures Reset(s).status == Idle && !Reset(s).hasAbortController
    ensures var t := PollRejected(Reset(s), historyId, message, fromInterval);
      t.status == Failed && t.error.Some? && t.jobId == None
  {
  }

  /**
   * Replies are not matched to the current job. `onUseHistory` stops the
   * interval but aborts nothing, so the poll in flight still lands: an
   * IN_PROGRESS reply leaves the page busy with no interval to finish it,
   * and generating stays blocked until cancel or another history click.
   */
  lemma StaleReplyAfterHistoryClick(s: PageState, h: HistoryItem, historyId: string,
                                    b64: Option<string>, err: Option<string>)
    ensures UseHistory(s, h).hasAbortController == s.hasAbortController
    ensures var t := PollReplied(UseHistory(s, h), historyId, StatusOk("IN_PROGRESS", b64, err));
      && t.status == InProgress && Busy(t) && !CanGenerate(t)
      && t.pollTimer == None && t.jobId == None
  {
  }

  /**
   * A COMPLETED reply stops the interval but aborts nothing: a slower poll
   * sent earlier that answers QUEUED afterwards takes the page back to
   * QUEUED, busy, with no interval left and the entry QUEUED again.
   */
  lemma LateQueuedAfterCompleted(s: PageState, historyId: string, b64: string, late: Option<string>,
                                 err: Option<string>)
    requires b64 != ""
    ensures var t := PollReplied(s, historyId, StatusOk("COMPLETED", Some(b64), None));
      && t.status == Completed && t.pollTimer == None
      && var u := PollReplied(t, historyId, StatusOk("QUEUED", late, err));
      && u.status == Queued && Busy(u) && u.pollTimer == None
      && u.imageDataUrl == Some(PngPrefix + b64)
      && u.history == UpdateHistoryItem(t.history, historyId, StatusPatch(Queued))
  {
  }

  /**
   * The whole happy path from the initial page: type a prompt, generate,
   * get a job id, poll once and receive the image.
   */
  lemma HappyPath(prompt: string, historyId: string, createdAt: int, jobId: string, b64: string)
    requires !AllWhitespace(prompt) && b64 != ""
    ensures var s1 := EditInputs(Initial, prompt, "", DefaultParams);
      var s2 := Generate(s1, historyId, createdAt);
      var s3 := GenerateReplied(s2, historyId, GenerateOk(jobId));
      var t := PollReplied(s3, historyId, StatusOk("COMPLETED", Some(b64), None));
      && s2.status == Queued && s3.status == InProgress
      && t.status == Completed && t.jobId == Some(jobId) && t.error == None
      && t.imageDataUrl == Some(PngPrefix + b64) && t.pollTimer == None
      && |t.history| == 1 && t.history[0].status == Completed
      && t.history[0].imageDataUrl == Some(PngPrefix + b64) && t.history[0].prompt == Trim(prompt)
  {
    var s1 := EditInputs(Initial, prompt, "", DefaultParams);
    CanGenerateIff(s1);
    GenerateEffect(s1, historyId, createdAt);
    var s2 := Generate(s1, historyId, createdAt);
    assert |s2.history| == 1;
    GenerateAcceptedStartsPolling(s2, historyId, jobId);
    var s3 := GenerateReplied(s2, historyId, GenerateOk(jobId));
    assert s3.history[0] == ApplyPatch(s2.history[0], StatusPatch(InProgress));
    PollCompletedWithImage(s3, historyId, b64, None);
  }
}
