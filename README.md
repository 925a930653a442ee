# Prompt improver core of prompt-autocraft, in Dafny

This project models the prompt-improvement part of the prompt-autocraft browser
extension and proves properties of the model. It covers six pieces:

- **The improver service** (`Improver`, `improver_service.dfy`). It checks the
  prompt and the client. It builds the request text from the improvement prompt
  and the user's prompt, forwards the streamed chunks, and holds an abort handle
  and a 30-second timer that are released on every way out. It also chooses the
  improvement prompt through a four-tier priority chain and fetches it from a URL
  through a cache fallback chain. The AI client, `fetch`, the prompt cache and
  the settings are inputs. A call returns the list of its observable effects in
  order: timer started or cleared, abort, request sent, and each callback.
- **Scroll sync** (`ScrollSync`, `scroll_sync.dfy`). It finds the centre line of
  the editor and looks up the change-log entry at that line. Scroll events are
  coalesced per animation frame and throttled to 16 ms. The explanation panel is
  scrolled to centre the entry's card only when the entry changes.
- **The line highlight overlay** (`LineHighlightOverlay`). It computes the bar
  geometry from the line metrics: the bar top, its height with a 12 px minimum,
  and the right offset taken from the entry's index. It also computes the hover
  emphasis and the highlight band.
- **The connecting lines** (`ConnectingLines`). There is one segment per entry.
  It runs from the middle of the entry's line range to its card.
- **The improved prompt preview** (`ImprovedPromptPreview`). It covers what is
  shown for given props, and where a card click scrolls the editor.
- **The dialog controller** (`PromptImproverDialog`). It handles start, stream,
  timeout, settlement, cancel, close and input over the dialog's improvement
  state. An improvement is a sequence of steps, so the user's cancel can come
  between the chunks and the settlement of the call in flight.

The modules `Wrappers` (an `Option` type), `JsText` (ECMAScript
`String.prototype.trim` and string truthiness) and `Measure` (how `parseFloat`
results fall back to defaults) support the six.

Three behaviours of the code that a reader may not expect:

- **Bar offsets.** The comments at `LineHighlightOverlay.tsx:59-61` speak of
  grouping improvements by overlap and of 4 px per overlapping bar. The code
  gives each bar the offset `2 + 4 * index`, whatever it overlaps. The model
  follows the code (`LineHighlightOverlay.RightOffset`), so two disjoint entries
  never share an offset either (`LineHighlightOverlay.OffsetsOfThreeEntries`).
- **`onError` after a timeout.** A timer that fires calls `cancel()` and then
  `onError(TIMEOUT)`. After that, the aborted call settles through the ordinary
  path and calls `onError` or `onComplete` once more.
  `Improver.RequestTerminalCounts` states the counts the code gives.
- **A cancel is followed by the settlement.** `cancel()` aborts the call but
  removes no callback. When the aborted call settles, its `onError` or
  `onComplete` still runs, on the state the cancel button had just cleared.
  A rejection with a non-empty message therefore replaces the editor with that
  message (`PromptImproverDialog.DialogController.Session`,
  `PromptImproverDialog.CancelledRequestOutcome`). Whether and how the client
  rejects on abort belongs to the client, so the settlement stays an input.
  Closing the dialog mid-request runs the same cancel. Because ending
  progress gives `cancelImprovement` a new identity, the close effect then
  runs a second time and clears the state again. The settlement's update
  survives on the closed dialog, and shows when it is opened again, only if
  it comes after that second run (`PromptImproverDialog.ClosedMidRequest`,
  which takes the order as an input).

Pixel values are `real`. A parsed CSS number is an `Option<real>`, where `None`
stands for NaN. Line numbers are `int`.

## Model

| member | source | states |
|---|---|---|
| JsText.TrimStart | src/services/promptImprover/improverService.ts:70 | the result is a suffix of the input; everything cut off is ECMAScript whitespace; the result does not start with whitespace |
| JsText.TrimEnd | src/services/promptImprover/improverService.ts:70 | the mirror image of `TrimStart`: a prefix, whitespace cut off, no trailing whitespace |
| JsText.Trim | src/services/promptImprover/improverService.ts:70 | the result is no longer than the input and neither starts nor ends with whitespace |
| JsText.TrimCutsWhitespace | src/services/promptImprover/improverService.ts:70 | the input is a whitespace prefix, then the trimmed text, character for character, then a whitespace suffix |
| JsText.BlankIffAllWhitespace | src/services/promptImprover/improverService.ts:70 | `s.trim()` is empty exactly when every character of `s` is whitespace, so the empty string is blank too |
| JsText.TrimIdempotent | src/services/promptImprover/improverService.ts:70 | trimming an already trimmed text changes nothing |
| Measure.NumberOr | src/components/promptImprover/useScrollSync.ts:26 | a parsed number, zero included, is kept; NaN gives the default |
| Measure.TruthyNumberOr | src/components/promptImprover/ConnectingLines.tsx:42 | `v \|\| default`: zero and NaN both give the default; a non-zero default makes the result non-zero |
| Measure.ClampNonNegative | src/components/promptImprover/useScrollSync.ts:99 | `Math.max(0, x)` is at least 0 and at least `x`, and is one of the two |
| Improver.UserContent | src/services/promptImprover/improverService.ts:104-108 | the request text is the improvement prompt, the opening marker, the user's prompt and the closing marker, each at its own offset |
| Improver.Forwarded | src/services/promptImprover/improverService.ts:152-154 | one `onStream` per progress chunk, in order, with a null or empty chunk passed as "" |
| Improver.Terminal | src/services/promptImprover/improverService.ts:166-178 | a resolved call ends with `onComplete(improvedPrompt, changeLog)` of its response; a rejected one with `onError` of its error |
| Improver.Prologue | src/services/promptImprover/improverService.ts:89-156 | an accepted call starts the 30 000 ms timer first, then sends the request text built by `UserContent` with the system instruction, and makes no callback before that |
| Improver.RequestCallbacks | src/services/promptImprover/improverService.ts:93-178 | the callbacks of an accepted call are the forwarded chunks, then `onError(TIMEOUT)` if the timer fired, then one terminal callback, also after the caller's cancel; given that the client sends no chunk after the abort, no `onStream` comes after an `onError` or `onComplete` |
| Improver.RequestTerminalCounts | src/services/promptImprover/improverService.ts:93-178 | `onComplete` is called once on success; `onError` is called once on failure, plus once more when the timer fired; a cancel by the caller adds none |
| Improver.RequestReleasesTimer | src/services/promptImprover/improverService.ts:89-194 | the timer is started first and cleared before the last effect, which is the terminal callback; the request is aborted exactly when the timer fired or the caller cancelled |
| Improver.PromptCache.constructor | src/services/promptImprover/improverService.ts:255-275 | a cache holding the given today and latest entries |
| Improver.PromptCache.SaveCache | src/services/promptImprover/improverService.ts:268 | saving makes the text both today's and the latest entry |
| Improver.UrlFallback | src/services/promptImprover/improverService.ts:253-281 | today's cache when truthy; else the fetched text when the response is ok, even an empty one; else the latest cache when truthy; else null, and null exactly then |
| Improver.CacheAfter | src/services/promptImprover/improverService.ts:255-269 | the cache changes only when today's entry is not truthy and the fetch succeeds, and then it holds the fetched text |
| Improver.ResolveImprovementPrompt | src/services/promptImprover/improverService.ts:216-247 | non-blank text in text mode wins and leaves the cache alone; otherwise a truthy result of the user URL's fallback chain (URL mode, non-blank URL) wins with that chain's cache; otherwise a truthy result of the build-time URL's chain, run on the cache the user tier left, wins; otherwise the default, with the cache both tiers left |
| Improver.ResolvedPromptIsDefaultOrNonEmpty | src/services/promptImprover/improverService.ts:216-247 | the chosen prompt is the default or not empty; with no text tier, no truthy user URL result and no build-time URL, it is the default |
| Improver.TodaysCacheShadowsUrls | src/services/promptImprover/improverService.ts:227-258 | once today's cache entry is truthy, any URL tier that is reached returns it, whatever the URL, and nothing is fetched |
| Improver.ImproverService.constructor | src/services/promptImprover/improverService.ts:37-48 | a new service holds no abort handle or timer and uses the default improvement prompt |
| Improver.ImproverService.ImprovePrompt | src/services/promptImprover/improverService.ts:66-156 | up to the first wait: a blank prompt gives only `onError("Prompt cannot be empty", API_ERROR)`; a client that is not ready gives only `onError(API_KEY_MISSING)`; on both paths the handles are unchanged and the call is over; otherwise the call is pending, holds both handles and has done `Prologue` |
| Improver.ImproverService.OnTimeout | src/services/promptImprover/improverService.ts:93-100 | the timer's callback: afterwards neither handle is held; it aborts a held controller, clears the timer, then calls `onError(TIMEOUT)` |
| Improver.ImproverService.Settle | src/services/promptImprover/improverService.ts:166-182 | the call settling: the timer is cleared if still held, the terminal callback follows, and neither handle is held afterwards |
| Improver.ImproverService.Request | src/services/promptImprover/improverService.ts:66-194 | a whole call, with the timer or the caller's `cancel()` between the chunks and the settlement: rejected prompts as in `ImprovePrompt`; an accepted call's effects are `RequestTrace` and both handles are released |
| Improver.ImproverService.Cancel | src/services/promptImprover/improverService.ts:188-194 | afterwards neither handle is held; it aborts only a held controller and clears only a held timer, so a second call does nothing; it makes no callback |
| Improver.ImproverService.ClearTimeout | src/services/promptImprover/improverService.ts:199-204 | afterwards no timer is held; a timer is cleared only if one was held |
| Improver.ImproverService.FetchFromUrl | src/services/promptImprover/improverService.ts:253-281 | returns `UrlFallback` of the old cache and the fetch, and leaves the cache as `CacheAfter` says |
| Improver.ImproverService.LoadImprovementPromptWithPriority | src/services/promptImprover/improverService.ts:216-247 | the improvement prompt and the cache afterwards are those of `ResolveImprovementPrompt` on the old cache |
| ScrollSync.TextareaLineHeight | src/components/promptImprover/useScrollSync.ts:23-27 | the parsed line height, or 20 when it is NaN |
| ScrollSync.FloorBand | src/components/promptImprover/useScrollSync.ts:37 | for a positive line height, the floor of `x / lineHeight` is the line whose pixel band contains `x` |
| ScrollSync.CenterLineNumber | src/components/promptImprover/useScrollSync.ts:32-38 | the floor of the centre over the line height; for a positive height, the line whose band holds the viewport's middle; non-finite exactly for a zero height |
| ScrollSync.ImprovementAtLineUnique | src/components/promptImprover/useScrollSync.ts:44-73 | the lookup's specification allows only one answer |
| ScrollSync.FindImprovementAtLine | src/components/promptImprover/useScrollSync.ts:44-73 | null exactly for an empty list; otherwise a valid index: the first entry containing the line, or, when none does, the first of the entries whose start line is nearest |
| ScrollSync.FindImprovementAtCenter | src/components/promptImprover/useScrollSync.ts:147-151 | the lookup at the centre line; a non-finite centre gives entry 0; null exactly for an empty list |
| ScrollSync.ScrollPanelTarget | src/components/promptImprover/useScrollSync.ts:78-102 | no scroll when the panel or the card is missing; the target is at least 0; a positive target puts the card's middle at the middle of the panel's viewport; a zero target happens only when the card's middle is already at or above it |
| ScrollSync.ScrollSyncHook.constructor | src/components/promptImprover/useScrollSync.ts:115-122 | no frame pending, last time 0, no last index, both returned values null |
| ScrollSync.ScrollSyncHook.Setup | src/components/promptImprover/useScrollSync.ts:124-130 | the listener is installed exactly when enabled, with an editor and at least one entry; only then are the entries and line height captured |
| ScrollSync.ScrollSyncHook.OnScroll | src/components/promptImprover/useScrollSync.ts:132-137 | a frame is scheduled exactly when the listener is installed and none is pending; otherwise nothing changes |
| ScrollSync.ScrollSyncHook.OnAnimationFrame | src/components/promptImprover/useScrollSync.ts:137-162 | the frame ref is cleared; a frame less than 16 ms after the last accepted one leaves everything else unchanged; otherwise the time and centre line are recorded, and the panel is scrolled and the last and synced index are set only when the resolved index is non-null and differs from the last one |
| ScrollSync.ScrollSyncHook.Teardown | src/components/promptImprover/useScrollSync.ts:167-172 | corrected cleanup: the listener is removed, and no frame is pending or referenced afterwards |
| ScrollSync.ScrollSyncHook.TeardownAsWritten | src/components/promptImprover/useScrollSync.ts:167-172 | cleanup as written: a pending frame is cancelled but the frame ref stays set, which leaves the hook stuck |
| ScrollSync.StuckAfterDependencyChange | src/components/promptImprover/useScrollSync.ts:132-172 | after a scroll, then a dependency change before the frame runs, a later scroll schedules nothing and no frame is queued |
| ScrollSync.ResumesAfterDependencyChange | src/components/promptImprover/useScrollSync.ts:132-172 | with the corrected cleanup, the same events schedule a new frame |
| LineHighlightOverlay.MeasureMetrics | src/components/promptImprover/LineHighlightOverlay.tsx:18-37 | with an editor, each metric is replaced only when it parses to a number; without one, nothing changes |
| LineHighlightOverlay.CalculateTop | src/components/promptImprover/LineHighlightOverlay.tsx:48-50 | a bar starts 2 px above the first pixel row of its first line |
| LineHighlightOverlay.CalculateHeight | src/components/promptImprover/LineHighlightOverlay.tsx:52-57 | at least 12, at least the padded height of the range, and one of the two |
| LineHighlightOverlay.TopStepsByLineHeight | src/components/promptImprover/LineHighlightOverlay.tsx:48-50 | the tops of consecutive lines are one line height apart |
| LineHighlightOverlay.HeightMonotone | src/components/promptImprover/LineHighlightOverlay.tsx:52-57 | with a non-negative line height, the height does not decrease as `end - start` grows |
| LineHighlightOverlay.BarCoversRange | src/components/promptImprover/LineHighlightOverlay.tsx:48-57 | a bar reaches from 2 px above its first line to at least 2 px below its last |
| LineHighlightOverlay.RightOffset | src/components/promptImprover/LineHighlightOverlay.tsx:60-76 | every bar's offset is at least 2 px |
| LineHighlightOverlay.RightOffsetStrictlyIncreasing | src/components/promptImprover/LineHighlightOverlay.tsx:60-76 | the offset grows by exactly 4 px per index, so it is strictly increasing |
| LineHighlightOverlay.Bars | src/components/promptImprover/LineHighlightOverlay.tsx:70-92 | one bar per entry, in order, with that entry's top, height and offset; a bar is emphasised exactly when its index is the hovered index |
| LineHighlightOverlay.BarsHaveDistinctOffsets | src/components/promptImprover/LineHighlightOverlay.tsx:60-92 | two distinct entries never share an offset, whether or not their ranges overlap |
| LineHighlightOverlay.OffsetsOfThreeEntries | src/components/promptImprover/LineHighlightOverlay.tsx:60-92 | entries at lines 1-3, 3-5 and 6-9 get the offsets 2, 6 and 10 |
| LineHighlightOverlay.AtMostOneEmphasised | src/components/promptImprover/LineHighlightOverlay.tsx:83 | at most one bar is emphasised |
| LineHighlightOverlay.HighlightBand | src/components/promptImprover/LineHighlightOverlay.tsx:95-106 | a band is drawn exactly when the hovered index names an existing entry, with that entry's top and height |
| LineHighlightOverlay.BandMatchesEmphasisedBar | src/components/promptImprover/LineHighlightOverlay.tsx:83-106 | there is a band exactly when some bar is emphasised, and it has that bar's geometry |
| LineHighlightOverlay.Render | src/components/promptImprover/LineHighlightOverlay.tsx:64-108 | the overlay moves up by the given scroll offset, which is the overlay's own `scrollTop` state (see `OverlayState`), and draws those bars and that band |
| LineHighlightOverlay.OverlayState.constructor | src/components/promptImprover/LineHighlightOverlay.tsx:18-20 | before the mount effect: line height 20, padding 8, scroll offset 0, no listener |
| LineHighlightOverlay.OverlayState.Mount | src/components/promptImprover/LineHighlightOverlay.tsx:22-46 | without an editor nothing is measured and no listener is added; with one, the metrics are `MeasureMetrics`' and the listener is added; the editor's scroll offset is not read |
| LineHighlightOverlay.OverlayState.OnEditorScroll | src/components/promptImprover/LineHighlightOverlay.tsx:40-42 | a registered listener copies the editor's scroll offset; otherwise it stays |
| LineHighlightOverlay.OverlayState.Unmount | src/components/promptImprover/LineHighlightOverlay.tsx:45 | the listener is removed |
| LineHighlightOverlay.MountedOverScrolledEditor | src/components/promptImprover/LineHighlightOverlay.tsx:18-67 | after the mount the overlay is unshifted (offset 0), whatever the editor's offset; after the next scroll event it is shifted by that event's offset; the bars are the same |
| ConnectingLines.ConnectorLineHeight | src/components/promptImprover/ConnectingLines.tsx:42 | the line height used is never zero |
| ConnectingLines.Segments | src/components/promptImprover/ConnectingLines.tsx:45-68 | one segment per remaining entry, in order |
| ConnectingLines.MidpointIsRangeMiddle | src/components/promptImprover/ConnectingLines.tsx:47-50 | a connector starts halfway between the top of the range's first line and the bottom of its last, shifted by the scroll |
| ConnectingLines.CalculateLines | src/components/promptImprover/ConnectingLines.tsx:35-71 | nothing is computed without the editor, the card list or the drawing area; otherwise one segment per entry, in order, from x = 0 at the range's middle to x = area width at the card top minus the editor top plus 20 (0 without a card), hovered exactly for the hovered index |
| ConnectingLines.HoveredConnectorUnique | src/components/promptImprover/ConnectingLines.tsx:66 | at most one connector is hovered, and one is exactly when the hovered index names an entry |
| ConnectingLines.StrokeOf | src/components/promptImprover/ConnectingLines.tsx:125-127 | hovered: primary colour, 2 px, solid; otherwise border colour, 1 px, dashed |
| ConnectingLines.ConnectingLinesView.constructor | src/components/promptImprover/ConnectingLines.tsx:27-29 | no connectors before the first calculation |
| ConnectingLines.ConnectingLinesView.Recalculate | src/components/promptImprover/ConnectingLines.tsx:35-71 | the drawn connectors become `CalculateLines`' result, or stay as they were when an element is missing |
| ImprovedPromptPreview.ScrollToLineTarget | src/components/promptImprover/ImprovedPromptPreview.tsx:88-104 | no scroll without an editor; the target is at least 0; a positive target puts the range's first line at the middle of the viewport; zero only when that line is already in the top half |
| ImprovedPromptPreview.ScrollTargetIgnoresEndLine | src/components/promptImprover/ImprovedPromptPreview.tsx:88 | the end line does not affect the target |
| ImprovedPromptPreview.Render | src/components/promptImprover/ImprovedPromptPreview.tsx:116-210 | a truthy error replaces the area with its text; otherwise the overlay, connectors and panel are shown exactly with a non-empty change log; the improve button is shown exactly for blank improved text when not improving, and is disabled exactly when `disabled` is set or no API key is configured; the cancel button is shown exactly while improving |
| ImprovedPromptPreview.ButtonsExclusive | src/components/promptImprover/ImprovedPromptPreview.tsx:144-181 | the improve and cancel buttons are never shown together |
| ImprovedPromptPreview.ScrollSyncArmedIff | src/components/promptImprover/ImprovedPromptPreview.tsx:77-83 | at render time, the scroll-sync hook is enabled exactly when the editor is shown and the change log is non-empty, and then the panel and overlay are shown; the hook itself reads the editor only when its effect's dependencies change |
| PromptImproverDialog.Apply | src/components/promptImprover/PromptImproverDialog.tsx:160-175 | `onStream` appends its chunk; `onComplete` ends progress, replaces the text and sets the change log; `onError` ends progress and sets the message |
| PromptImproverDialog.StreamsConcatenate | src/components/promptImprover/PromptImproverDialog.tsx:162-164 | after chunks c1..cn the text is the old text followed by their concatenation, and nothing else changes |
| PromptImproverDialog.CallbacksReplay | src/components/promptImprover/PromptImproverDialog.tsx:160-175 | replaying a request's callbacks is: the chunks, then the timeout's update if any, then the terminal update |
| PromptImproverDialog.RequestOutcome | src/components/promptImprover/PromptImproverDialog.tsx:160-175 | after an accepted request with no cancel in between, progress has ended; a resolved call leaves the final text and its change log, with the streamed text discarded; a rejected call leaves the streamed text and its error message; after a timeout the timeout's message stays unless the settlement replaces it |
| PromptImproverDialog.AfterTrack | src/components/promptImprover/PromptImproverDialog.tsx:177-184 | a throw after the request ends progress and shows the Error's message, or "Unknown error occurred" for anything else |
| PromptImproverDialog.SubmittedContent | src/components/promptImprover/PromptImproverDialog.tsx:211 | the trimmed improved text when it is non-empty, otherwise the trimmed content |
| PromptImproverDialog.EnabledInputSubmitsText | src/components/promptImprover/PromptImproverDialog.tsx:321-325 | an enabled Input button submits a non-empty text with no surrounding whitespace; blank texts submit "" |
| PromptImproverDialog.PreviewPropsOf | src/components/promptImprover/PromptImproverDialog.tsx:292-307 | the preview gets the improvement state, `disabled` = loading or blank content, and the API key flag |
| PromptImproverDialog.CancelledRequestOutcome | src/components/promptImprover/PromptImproverDialog.tsx:170-194 | right after a cancel the editor and the improve button are shown; when the aborted call then rejects, its message is set on the cleared state and, if non-empty, replaces the editor; when it resolves, its text and change log are shown |
| PromptImproverDialog.EnabledImproveButtonAcceptsContent | src/components/promptImprover/PromptImproverDialog.tsx:302-303 | an enabled improve button means non-blank content, not loading, not improving, and an API key configured |
| PromptImproverDialog.DialogController.constructor | src/components/promptImprover/PromptImproverDialog.tsx:55-77 | the initial content, no improved text, not improving, no error, no change log, nothing hovered, no service |
| PromptImproverDialog.DialogController.InitService | src/components/promptImprover/PromptImproverDialog.tsx:90-102 | the service is created only once; a new one is idle and has the prompt the priority chain resolves |
| PromptImproverDialog.DialogController.CancelImprovement | src/components/promptImprover/PromptImproverDialog.tsx:82-87 | only while improving with a service: the service is cancelled and progress ends; otherwise nothing happens |
| PromptImproverDialog.DialogController.HandleCancelImprovement | src/components/promptImprover/PromptImproverDialog.tsx:190-194 | cancels as above, with the service's abort and timer clearing as effects, then clears the improved text and the error |
| PromptImproverDialog.DialogController.HandleImprove | src/components/promptImprover/PromptImproverDialog.tsx:150-160 | up to the first wait: blank content or no service does nothing; otherwise progress starts with empty text and no error; a client that is not ready ends it with the API key message and then the analytics outcome; otherwise the request is pending with both service handles held |
| PromptImproverDialog.DialogController.BeginImprovement | src/components/promptImprover/PromptImproverDialog.tsx:155-157 | progress starts with an empty text and no error, and the change log stays |
| PromptImproverDialog.DialogController.OnProgress | src/components/promptImprover/PromptImproverDialog.tsx:162-164 | one forwarded chunk is appended to the text; nothing else changes |
| PromptImproverDialog.DialogController.StreamChunks | src/components/promptImprover/PromptImproverDialog.tsx:162-164 | the chunks, one after another, give `Forwarded(chunks)` and its replay on the state |
| PromptImproverDialog.DialogController.OnTimeout | src/components/promptImprover/PromptImproverDialog.tsx:170-173 | the service's timer fires: the service is idle afterwards and `onError(TIMEOUT)` ends progress with its message |
| PromptImproverDialog.DialogController.Interrupt | src/components/promptImprover/PromptImproverDialog.tsx:170-194 | between chunks and settlement: nothing, the timer's effects and update, or the cancel button's, which clears the text and the error and ends progress |
| PromptImproverDialog.DialogController.OnSettled | src/components/promptImprover/PromptImproverDialog.tsx:165-184 | the call settles: the service is idle, its terminal callback updates the state, then the analytics outcome applies |
| PromptImproverDialog.DialogController.Session | src/components/promptImprover/PromptImproverDialog.tsx:150-194 | one improvement from click to settlement: the effects are the service's `RequestTrace`; without a cancel the state is the callbacks replayed from the start of progress, then the analytics outcome; after a cancel it is the terminal update applied to the cleared state |
| PromptImproverDialog.DialogController.Close | src/components/promptImprover/PromptImproverDialog.tsx:115-126 | content is restored; improved text, error, change log and hovered index are cleared; a running improvement is cancelled, with the service's abort and timer clearing as effects, and the service keeps its improvement prompt |
| PromptImproverDialog.DialogController.HandleInput | src/components/promptImprover/PromptImproverDialog.tsx:206-224 | a successful analytics call is followed by submitting `SubmittedContent`; a throwing one submits nothing; loading ends either way |
| PromptImproverDialog.ClosedMidRequest | src/components/promptImprover/PromptImproverDialog.tsx:82-175 | a dialog closed while its request is in flight: the close effect runs, then again after the commit that ends progress; a settlement before that second run is erased and the cleared state remains, one after it is applied to the cleared state, so a rejection's message stays exactly in that order |
| PromptImproverDialog.DialogController.SetContent | src/components/promptImprover/PromptImproverDialog.tsx:285 | the editor's change handler sets the content |
| PromptImproverDialog.DialogController.SetHoveredIndex | src/components/promptImprover/PromptImproverDialog.tsx:299 | the panel's hover handler sets the hovered index |

## Left out

- The Gemini streaming client, `fetch`, the prompt cache service and the settings storage are not part of this model. They are inputs: whether the client is ready, a `ClientRun` of chunks, interruption and settlement, one `fetch` outcome per URL, a `PromptCache` object and an `ImprovePromptSettings` value.
- Improver.ImproverService.FetchFromUrl: a failing `response.text()` and a failing `saveCache` are not modelled. In the code both fall through to the latest cache.
- Improver.ImproverService.Request: the timer or the caller's cancel comes, if at all, after all progress chunks and before the call settles. Chunks that arrive after an abort are not modelled; `DialogController.Session` has the same order.
- Overlapping `improvePrompt` calls on one service overwrite the shared handles. The model runs one call at a time.
- The request's schema, the system instruction's text, `console` logging and the analytics payloads are left out. The default prompts are constant strings and are parameters here.
- Asynchrony: `loadSettings` runs to completion inside `InitService`, and reloading on a settings change is not modelled. The service's constructor starts its own `loadSettings` (improverService.ts:43-48), so the chain runs twice in the code; both runs resolve the same chain, and the model runs it once.
- PromptImproverDialog.DialogController.Close: one run of the close effect. React's scheduling, which decides whether the aborted call settles before or after the effect's second run, is an input of `ClosedMidRequest`. The unmount-cleanup effect (PromptImproverDialog.tsx:129-134) also runs its stale `cancelImprovement` whenever `isImproving` changes; that cancel then finds an idle service, or nothing, and is not modelled.
- ScrollSync.CenterLineNumber: JavaScript numbers are doubles, and the model uses exact reals. All non-finite centre lines (zero line height) count as one case.
- ScrollSync.ScrollSyncHook: `requestAnimationFrame` ids are a pending flag. The browser delivers only queued frames, which is why `OnAnimationFrame` requires one. Listener registration is a flag.
- `lastIndexRef` keeps its value across effect runs, as in the code. It is not reset when the entries change.
- ConnectingLines: the scroll listeners and `ResizeObserver` are not modelled. They only call the recalculation, which `ConnectingLinesView.Recalculate` models.
- PromptImproverDialog.Apply: `logs || []` is not modelled, because a change log is always a list here.
- PromptImproverDialog: the variable list (`mergeVariableConfigs`), the settings and info dialogs, i18n, key-event propagation, `onOpenChange` and a throwing `onInput` are left out, as is the rejection that a throwing analytics call carries out of `handleInput` after its `finally`. The unmount cleanup calls the same `cancelImprovement` that `CancelImprovement` models.
- All JSX structure, class names and styles beyond the render conditions above are left out, as are the presentational components (explanation panel and cards, input section) and the stories.

## Findings

| source | as written | input that shows it | evidently intended | confidence | as-written member | corrected member |
|---|---|---|---|---|---|---|
| src/components/promptImprover/useScrollSync.ts:167-172 | the effect's cleanup cancels a pending animation frame but leaves `rafIdRef.current` set; only the cancelled callback would reset it, so every later `handleScroll` returns early | scroll the editor, then change `improvements` (or another dependency) before the next frame runs, then scroll again | the cleanup also sets `rafIdRef.current = null`, so the re-installed listener can schedule frames | not executed; high | ScrollSync.StuckAfterDependencyChange | ScrollSync.ResumesAfterDependencyChange |

`ScrollSync.ScrollSyncHook.TeardownAsWritten` models the cleanup as written. Its
contract shows that the frame ref stays set with no frame queued.
`ScrollSync.ScrollSyncHook.Teardown` is the corrected cleanup, and it restores
`Valid()`: the frame ref is set exactly while a frame is queued.
`ScrollSync.ScrollSyncHook.OnScroll` keeps a stuck hook stuck, so scroll sync
stays off until the component unmounts.

The Input button is disabled when both texts are blank, but the Ctrl/Cmd+Enter
shortcut calls the same handler without that check. So the shortcut submits ""
for blank texts (`PromptImproverDialog.EnabledInputSubmitsText`). That may be
intended, so it is noted here rather than corrected.
