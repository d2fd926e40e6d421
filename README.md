# Z-Image job lifecycle, modelled in Dafny

This project models the core of a small Next.js text-to-image site: the
browser page that submits a generation job, polls its status and keeps a
history (`app/page.tsx`), and the two API routes it talks to —
`POST /api/generate`, which forwards the request to the RunPod provider and
answers with a job id or a classified failure, and `GET /api/status`, a
placeholder that answers PENDING for ids containing `-u` and NOT_FOUND for
any other.

Modules, one per concern:

- `Wrappers` (`wrappers.dfy`): `Option`, for TypeScript's `null`/`undefined`.
- `JsText` (`js_text.dfy`): the JavaScript string behaviour the code relies
  on — `${n}` for integers, `String.prototype.trim` (the ECMAScript
  whitespace set) and `String.prototype.includes` — each with a reference
  reading and a lemma tying the two together.
- `PageValues` (`page_values.dfy`): the page's pure helpers — status and its
  label, parameters and `normalizedParams`, `clamp`, `formatTime`, history
  entries, `pushHistory` and `updateHistoryItem`.
- `Lifecycle` (`lifecycle.dfy`): the page's state (`PageState`: the React
  state cells and the refs) and one function per event — a click, a network
  reply, a rejected request — together with the invariant every event keeps
  and the properties of each event and of event sequences.
- `PageController` (`page_controller.dfy`): the page as a class `Page` whose
  fields are the state cells and refs and whose methods perform each
  handler's updates step by step; every method is proved to reach the state
  the matching `Lifecycle` function gives and to keep the invariant.
- `GenerateRoute` (`generate_route.dfy`) and `StatusRoute`
  (`status_route.dfy`): the two routes as pure classifiers.
- `Wiring` (`wiring.dfy`): how the page reads the routes' responses, and what
  follows when the page talks to these two routes.

Modelling choices:

- Network replies, thrown errors, timer ticks, ids and timestamps are inputs.
  An asynchronous continuation is an event that carries the ids its closure
  captured (the history id of `onGenerate`, the ids of `startPolling`). As in
  the code, nothing checks that a reply belongs to the current job.
- The polling interval is the field `pollTimer` (the job and history ids its
  ticks poll for, or none); `clearPoll` empties it and `startPolling` replaces
  it. The `AbortController` is a flag; the rejection an abort causes is the
  event `PollRequestRejected` with the abort's message.
- The status cell holds whatever status string a reply carries: strings other
  than the six known names are kept as `Status.Other`, and `statusLabel`
  shows them as they are.
- Handlers read the state of the last render; the model reads the current
  fields, which agree because each click follows a render.
- The model follows the code as it stands. The status route is a
  placeholder (its own comments at app/api/status/route.ts:5-6 and 18-22 say
  so): it never looks anything up and calls any id containing `-u` PENDING,
  a status the page does not know, so that reply ends polling
  (`Wiring.PlaceholderStatusEndsPolling`). An unknown job gets a 404 that
  the page shows as FAILED. No provider status string is normalised. A
  poll aborted by cancel or by a reset is caught and turns CANCELLED or IDLE
  into FAILED (`Lifecycle.CancelIsNotFinal`, `Lifecycle.ResetIsNotFinal`).
  `pollStatus` never checks that a reply belongs to the current job. A poll
  still in flight after a history click, which aborts nothing, can leave the
  page busy with no interval (`Lifecycle.StaleReplyAfterHistoryClick`). So
  can a slow QUEUED reply landing after COMPLETED
  (`Lifecycle.LateQueuedAfterCompleted`).

## Model

| member | source | states |
|---|---|---|
| JsText.ParseNatToString | app/page.tsx:152 | the decimal text put in "(…)" messages reads back as the HTTP status it renders |
| JsText.TrimIsInfix | app/page.tsx:236-237 | `trim` keeps the infix between a whitespace prefix and a whitespace suffix, and the kept text neither starts nor ends with whitespace |
| JsText.TrimEmptyIffWhitespace | app/page.tsx:96 | a prompt trims to the empty string exactly when every character is whitespace |
| JsText.TrimIdempotent | app/page.tsx:236-237 | trimming an already trimmed prompt changes nothing |
| JsText.IncludesIffOccurs | app/api/status/route.ts:21 | `includes` is true exactly when the pattern occurs at some offset |
| PageValues.ParseStatus | app/page.tsx:160-191 | every status string denotes one well-formed status whose name is that string |
| PageValues.StatusLabel | app/page.tsx:331-339 | each known status has its own label that maps back to it; any other status is shown as its own name |
| PageValues.Clamp | app/page.tsx:42-44 | with min ≤ max the result lies in [min, max], is the input when the input is in range, and is the nearer bound otherwise |
| PageValues.NormalizeParams | app/page.tsx:71-78 | steps in [10,80] and guidance in [1,20], zero falling back to 30 and 7; in-range values kept and out-of-range ones moved to the nearer bound; an empty seed stays empty, any other is clamped to [0, 2147483647]; aspect unchanged |
| PageValues.NormalizeParamsIdempotent | app/page.tsx:71-78 | normalising normalised parameters changes nothing |
| PageValues.FormatTime | app/page.tsx:58-64 | under a minute the whole seconds followed by "s"; otherwise "<m>m <r>s" with r < 60 and 60·m + r the whole seconds |
| PageValues.ApplyPatch | app/page.tsx:137 | a patch overwrites exactly the fields it sets and keeps id, time, prompts and parameters |
| PageValues.PushHistory | app/page.tsx:132-134 | at most 12 entries, the new one first, then the first (at most 11) previous entries in their order |
| PageValues.UpdateHistoryItem | app/page.tsx:136-138 | same length; entries with the id are patched, every other entry is unchanged |
| PageValues.UpdateHistoryItemKeepsIds | app/page.tsx:136-138 | patching keeps every entry in place: the ids in order are unchanged |
| PageValues.UpdateHistoryItemIdempotent | app/page.tsx:136-138 | applying the same patch twice is applying it once |
| PageValues.PatchAfterPush | app/page.tsx:233-279 | pushing a fresh entry and then patching its id equals pushing the patched entry |
| PageValues.PushAllKeepsNewest | app/page.tsx:132-134 | after any number of pushes the history is the 12 newest entries, newest first |
| PageValues.PushEvictsOldest | app/page.tsx:132-134 | pushing onto 12 entries drops the oldest and shifts the rest by one |
| Lifecycle.InitialValid | app/page.tsx:67-92 | the first render is IDLE, not busy, cannot generate, and satisfies the invariant |
| Lifecycle.CanGenerateIff | app/page.tsx:94-97 | generating is allowed exactly when the status is neither QUEUED nor IN_PROGRESS and the prompt is not all whitespace |
| Lifecycle.GenerateEffect | app/page.tsx:220-243 | when blocked nothing changes; otherwise a QUEUED entry with the trimmed prompt and normalised parameters is pushed first, status QUEUED, error, image and interval cleared, a fresh abort controller, the old job id kept |
| Lifecycle.GenerateRejectedByServer | app/page.tsx:266-275 | a not-ok reply gives FAILED with the server's message or "Generate request failed (code)" on page and entry, and no polling |
| Lifecycle.GenerateAcceptedStartsPolling | app/page.tsx:277-281 | an ok reply sets the job id and IN_PROGRESS on page and entry and starts one interval for that job |
| Lifecycle.PollNotOkFails | app/page.tsx:151-158 | a not-ok status reply gives FAILED with the server's message or "Status request failed (code)" and stops polling |
| Lifecycle.PollPendingKeepsPolling | app/page.tsx:160-165 | QUEUED and IN_PROGRESS are copied to page and entry, polling continues, error and image untouched |
| Lifecycle.PollCompletedWithImage | app/page.tsx:167-184 | COMPLETED with an image sets the PNG data URL on page and entry, clears the error and stops polling |
| Lifecycle.PollCompletedWithoutImage | app/page.tsx:167-176 | COMPLETED without an image ends FAILED with "COMPLETED but no image_b64 in output" on page and entry, and polling stops |
| Lifecycle.PollOtherStatusStops | app/page.tsx:187-191 | any other status string is copied to page and entry with the reply's error or "Generation failed", and polling stops |
| Lifecycle.PollStopsUnlessPending | app/page.tsx:151-191 | after any status reply the interval survives exactly when the page is still busy |
| Lifecycle.PollRejectedEffect | app/page.tsx:200-214 | a rejected poll gives FAILED with its message or "Polling error" on page and entry; only the interval's handler clears the interval |
| Lifecycle.CancelEffect | app/page.tsx:293-300 | no-op unless busy; otherwise CANCELLED, "Cancelled locally", interval and abort handle dropped, history and image untouched |
| Lifecycle.ResetEffect | app/page.tsx:108-119 | IDLE with no job id, error, image, interval or abort handle; history, prompt and parameters kept |
| Lifecycle.UseHistoryEffect | app/page.tsx:302-311 | prompts and parameters restored, COMPLETED for a completed entry and IDLE otherwise, image replaced only when the entry has one, polling stopped without an abort |
| Lifecycle.PollRepliedKeepsValid | app/page.tsx:167-184 | every status reply keeps the invariant: COMPLETED only ever comes with a PNG data URL |
| Lifecycle.StepKeepsValid | app/page.tsx:132-311 | every event keeps the invariant: at most 12 entries, well-formed statuses, and COMPLETED always with its image on page and entries |
| Lifecycle.RunKeepsValid | app/page.tsx:132-311 | the invariant holds after any sequence of events the page can receive |
| Lifecycle.CancelIsNotFinal | app/page.tsx:207-214 | a poll rejected by the abort of a cancel turns CANCELLED into FAILED |
| Lifecycle.FirstPollFailureKeepsPolling | app/page.tsx:200-205 | after the first poll fails the interval still runs, and its next QUEUED reply takes FAILED back to QUEUED |
| Lifecycle.ResetIsNotFinal | app/page.tsx:108-119 | a reset drops the abort handle, and the rejection its abort causes in the poll in flight turns IDLE into FAILED |
| Lifecycle.StaleReplyAfterHistoryClick | app/page.tsx:302-311 | a history click keeps the abort handle, so an IN_PROGRESS reply of the poll in flight leaves the page busy, unable to generate, with no interval and no job id |
| Lifecycle.LateQueuedAfterCompleted | app/page.tsx:160-185 | after COMPLETED, a late QUEUED reply takes page and entry back to QUEUED, busy with no interval, the image still shown |
| Lifecycle.HappyPath | app/page.tsx:220-281 | prompt, generate, job id, one COMPLETED reply: COMPLETED with the image, one history entry carrying it, polling stopped |
| PageController.Page.constructor | app/page.tsx:67-92 | the fields start as the initial page state |
| PageController.Page.Busy | app/page.tsx:99 | busy exactly when cancelling would change the state |
| PageController.Page.CanGenerate | app/page.tsx:94-97 | not busy and a prompt that is not all whitespace |
| PageController.Page.EditInputs | app/page.tsx:67-70 | the inputs take the new values; nothing else changes |
| PageController.Page.ClearPoll | app/page.tsx:101-106 | the interval is gone; nothing else changes |
| PageController.Page.PushHistory | app/page.tsx:132-134 | the history becomes the pushed list; nothing else changes |
| PageController.Page.UpdateHistoryItem | app/page.tsx:136-138 | the history becomes the patched list; nothing else changes |
| PageController.Page.SetFailed | app/page.tsx:152-155 | FAILED with the message on the page and on the entry |
| PageController.Page.Generate | app/page.tsx:220-264 | reaches the `Generate` state, keeps the invariant, and returns the posted body exactly when the guard lets it through |
| PageController.Page.StartPolling | app/page.tsx:196-218 | the interval is replaced by one for the given ids |
| PageController.Page.GenerateReplied | app/page.tsx:266-281 | reaches the `GenerateReplied` state and keeps the invariant |
| PageController.Page.PollReplied | app/page.tsx:140-194 | reaches the `PollReplied` state and keeps the invariant |
| PageController.Page.PollRejected | app/page.tsx:200-214 | reaches the `PollRejected` state and keeps the invariant |
| PageController.Page.Cancel | app/page.tsx:293-300 | reaches the `Cancel` state and keeps the invariant |
| PageController.Page.Reset | app/page.tsx:108-119 | reaches the `Reset` state and keeps the invariant |
| PageController.Page.UseHistory | app/page.tsx:302-311 | reaches the `UseHistory` state and keeps the invariant |
| PageController.Page.StatusLabel | app/page.tsx:331-339 | the label of the current status, as `PageValues.StatusLabel` |
| PageController.CancelDuringPoll | app/page.tsx:196-300 | generate, accept, cancel during polling, then the abort's rejection: the page ends FAILED with polling stopped and its one history entry FAILED |
| GenerateRoute.UpstreamCall | app/api/generate/route.ts:27-48 | an upstream request is made exactly when the body parsed, the prompt is a non-empty string and all three variables are set |
| GenerateRoute.Post | app/api/generate/route.ts:14-85 | 400 exactly for a bad body or prompt, 500 exactly for missing configuration, 200 with the upstream id exactly when upstream was OK, JSON and had a non-empty string id, 502 for every other outcome of the call |
| GenerateRoute.InvalidJsonRejected | app/api/generate/route.ts:17-21 | an unparseable body gives 400 "Invalid JSON body" and no upstream request |
| GenerateRoute.MissingPromptRejected | app/api/generate/route.ts:23-25 | a missing, empty or non-string prompt gives 400 "Missing prompt" |
| GenerateRoute.BlankPromptPasses | app/api/generate/route.ts:23-25 | a whitespace-only prompt is not rejected |
| GenerateRoute.MisconfigurationRejected | app/api/generate/route.ts:27-36 | a missing variable gives 500 with the configuration message before any upstream request |
| GenerateRoute.EarlyAnswersIgnoreUpstream | app/api/generate/route.ts:17-36 | when no upstream request is made, the answer does not depend on upstream |
| GenerateRoute.UpstreamRequestShape | app/api/generate/route.ts:38-48 | the request goes to base + "/" + endpoint + "/run" with the bearer key and the body unchanged |
| GenerateRoute.UpstreamNotOk | app/api/generate/route.ts:52-57 | a non-OK reply gives 502 with the upstream status and raw text |
| GenerateRoute.UpstreamMalformed | app/api/generate/route.ts:60-76 | a non-JSON reply, or one without a non-empty string id, gives 502 |
| GenerateRoute.TransportFailure | app/api/generate/route.ts:79-84 | a thrown error gives 502 with its message, or "Upstream request failed" when it has none |
| StatusRoute.Get | app/api/status/route.ts:9-33 | 400 "Missing jobId" exactly for a missing or empty id; ok and 200 exactly for a non-empty id containing "-u", with PENDING, null output and the id echoed; 404 NOT_FOUND with null output otherwise |
| StatusRoute.NeverReportsProgress | app/api/status/route.ts:7-33 | the route never reports RUNNING, COMPLETED or FAILED |
| StatusRoute.ExampleIds | app/api/status/route.ts:21-33 | "job-u1" is pending, "ghost" is not found |
| Wiring.PagePromptPassesRoute | app/page.tsx:246-264 | the prompt the page sends is never refused by the route's prompt check, and with configuration set the page's payload is what goes upstream |
| Wiring.GenerateAnswerOnPage | app/page.tsx:266-281 | an accepted job is polled under the upstream id; a refusal shows the route's error text, or "Generate request failed (502)" when it is empty |
| Wiring.EmptyUpstreamMessage | app/api/generate/route.ts:79-84 | an upstream error with an empty message reaches the page as "Generate request failed (502)" |
| Wiring.PlaceholderStatusEndsPolling | app/api/status/route.ts:21-33 | against the placeholder route one reply stops polling and never completes: PENDING with "Generation failed" for ids with "-u", FAILED with "Not found" or "Missing jobId" otherwise |

## Left out

- Rendering (app/page.tsx:348-660): markup, styling and the `showAdvanced` toggle are presentation.
- The elapsed-time ticker (`elapsedMs`, `startTsRef`, the 250 ms interval) and the 1200 ms polling cadence: wall-clock timers; the interval is a field and its ticks show up only as the replies they produce.
- `fetch`, `res.json()`, `NextResponse`, `JSON.parse`, `JSON.stringify` and `safeJsonStringify`: replies and parse outcomes are input datatypes; the generate route forwards the parsed body as an opaque value.
- A rejected `/api/generate` request (network error, abort, a body that is not JSON) has no handler in the page; the model's `GenerateRequestRejected` event therefore changes nothing, and the page stays QUEUED until cancel, reset or a history click.
- A status reply with `ok` true but no `status` field (the page would store `undefined`) is not modelled: the reply's status is always a string.
- `AbortController` internals: only whether `abortRef` holds a controller is kept; which in-flight request an abort hits is decided by the caller of the model through the rejection events it supplies.
- `makeId`, `Date.now` and `Math.random`: the history id and creation time are parameters.
- `onDownload` and `onCopyImage`: DOM and clipboard I/O.
- The unmount cleanup (app/page.tsx:341-346): there is no unmount event in the model.
- `Number()` coercion, NaN and non-integer parameters: parameters are integers and the falsy value is 0; `numImages` and `format` have one value each and are constants of the payload.
- Reading `process.env` and the query string: they are optional-string inputs.
- The `catch` of the status route (app/api/status/route.ts:34-39): nothing in its `try` can throw, so no input reaches it.
- PageController.Page.UseHistory: requires the entry to be in the current history, as the rendered history list is the only caller.
- PageController.Page.StatusLabel: requires the page invariant, which every reachable state satisfies.
