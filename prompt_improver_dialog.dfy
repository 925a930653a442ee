/**
 * The prompt improver dialog's controller: the state it keeps for one
 * improvement (the streamed or final text, the progress flag, the error,
 * the change log, the hovered entry) and the handlers that change it.
 *
 * The service's callbacks are React state updates; they are modelled as a
 * pure `Apply` of each callback effect the service reports, in order. The
 * analytics call after a request, the parent's `onOpenChange` and `onInput`
 * and the variable list are not part of this model.
 */
module PromptImproverDialog {
  import opened Wrappers
  import opened JsText
  import opened Improver
  import opened ImprovedPromptPreview

  /** The state an improvement moves through. */
  datatype Progress = Progress(isImproving: bool, improvedContent: string,
                               improvementError: Option<string>, changeLog: seq<ImproveLog>)

  /**
   * One callback's state update: `onStream` appends the chunk to the text so
   * far; `onComplete` ends progress, replaces the text with the final one and
   * takes the change log; `onError` ends progress and records the message.
   * Effects that are not callbacks change nothing.
   */
  function Apply(p: Progress, e: Effect): (q: Progress)
    ensures e.Streamed? ==> q == p.(improvedContent := p.improvedContent + e.chunk)
    ensures e.Completed? ==> !q.isImproving && q.improvedContent == e.improvedPrompt
                             && q.changeLog == e.changeLog && q.improvementError == p.improvementError
    ensures e.Failed? ==> !q.isImproving && q.improvementError == Some(e.error.message)
                          && q.improvedContent == p.improvedContent && q.changeLog == p.changeLog
    ensures !IsCallback(e) ==> q == p
  {
    match e
    case Streamed(chunk) => p.(improvedContent := p.improvedContent + chunk)
    case Completed(improved, logs) => p.(isImproving := false, improvedContent := improved, changeLog := logs)
    case Failed(error) => p.(isImproving := false, improvementError := Some(error.message))
    case _ => p
  }

  /** The updates of a list of effects, applied in order. */
  function Replay(p: Progress, es: seq<Effect>): Progress
    decreases |es|
  {
    if es == [] then p else Replay(Apply(p, es[0]), es[1..])
  }

  lemma {:induction false} ReplayAppend(p: Progress, a: seq<Effect>, b: seq<Effect>)
    ensures Replay(p, a + b) == Replay(Replay(p, a), b)
    decreases |a|
  {
    if a == [] {
      assert a + b == b;
    } else {
      assert (a + b)[0] == a[0];
      assert (a + b)[1..] == a[1..] + b;
      ReplayAppend(Apply(p, a[0]), a[1..], b);
    }
  }

  /** The chunks joined, a null chunk counting as "". */
  function Concat(chunks: seq<Option<string>>): string
  {
    if chunks == [] then "" else chunks[0].GetOr("") + Concat(chunks[1..])
  }

  /** After the chunks `c1 .. cn` the text is what it was followed by `c1 + .. + cn`; nothing else changes. */
  lemma {:induction false} StreamsConcatenate(p: Progress, chunks: seq<Option<string>>)
    ensures Replay(p, Forwarded(chunks)) == p.(improvedContent := p.improvedContent + Concat(chunks))
    decreases |chunks|
  {
    if chunks != [] {
      var f := Forwarded(chunks);
      assert f[0] == Streamed(chunks[0].GetOr(""));
      assert f[1..] == Forwarded(chunks[1..]);
      var q := Apply(p, f[0]);
      StreamsConcatenate(q, chunks[1..]);
      assert q.improvedContent + Concat(chunks[1..]) == p.improvedContent + Concat(chunks);
    }
  }

  /**
   * How an accepted request leaves the dialog when only its callbacks change
   * the state, that is when the user does not cancel it. Progress always ends. A
   * resolved call leaves the final text and its change log, the streamed
   * text discarded, and the error as before, or the timeout's message when
   * the timer fired first. A rejected call leaves the streamed text, the
   * change log as before and its own error message.
   */
  lemma RequestOutcome(improvementPrompt: string, systemInstruction: string, prompt: string,
                       run: ClientRun, p: Progress)
    ensures var r := Replay(p, Callbacks(RequestTrace(improvementPrompt, systemInstruction, prompt, run)));
            && !r.isImproving
            && (run.settlement.Resolved? ==>
                  && r.improvedContent == run.settlement.response.improvedPrompt
                  && r.changeLog == run.settlement.response.changeLog
                  && r.improvementError == (if run.interruption == TimedOut then Some(TIMEOUT_ERROR.message) else p.improvementError))
            && (run.settlement.Rejected? ==>
                  && r.improvedContent == p.improvedContent + Concat(run.chunks)
                  && r.changeLog == p.changeLog
                  && r.improvementError == Some(run.settlement.error.message))
  {
    RequestCallbacks(improvementPrompt, systemInstruction, prompt, run);
    CallbacksReplay(p, run.chunks, run.interruption == TimedOut, run.settlement);
    StreamsConcatenate(p, run.chunks);
  }

  /** The callbacks of a request, replayed: the chunks, then the timeout's `onError` if any, then the terminal one. */
  lemma CallbacksReplay(p: Progress, chunks: seq<Option<string>>, timedOut: bool, settlement: Settlement)
    ensures Replay(p, Forwarded(chunks) + (if timedOut then [Failed(TIMEOUT_ERROR)] else []) + [Terminal(settlement)])
            == var streamed := Replay(p, Forwarded(chunks));
               Apply(if timedOut then Apply(streamed, Failed(TIMEOUT_ERROR)) else streamed, Terminal(settlement))
  {
    var f := Forwarded(chunks);
    var fired: seq<Effect> := if timedOut then [Failed(TIMEOUT_ERROR)] else [];
    var last := [Terminal(settlement)];
    ReplayAppend(p, f + fired, last);
    ReplayAppend(p, f, fired);
    var streamed := Replay(p, f);
    assert Replay(streamed, fired) == if timedOut then Apply(streamed, Failed(TIMEOUT_ERROR)) else streamed;
    var timed := Replay(streamed, fired);
    assert Replay(timed, last) == Apply(timed, Terminal(settlement));
  }

  /** One more chunk forwards one more `onStream`. */
  lemma ForwardedStep(chunks: seq<Option<string>>, i: nat)
    requires i < |chunks|
    ensures Forwarded(chunks[..i + 1]) == Forwarded(chunks[..i]) + Forwarded([chunks[i]])
  {
    var a := Forwarded(chunks[..i]);
    var b := Forwarded([chunks[i]]);
    var l := Forwarded(chunks[..i + 1]);
    forall k | 0 <= k < |l|
      ensures l[k] == (a + b)[k]
    {
      if k < i {
        assert chunks[..i + 1][k] == chunks[..i][k];
      }
    }
    assert l == a + b;
  }

  /** What the analytics call after a request does: succeed, throw an `Error`, or throw something else. */
  datatype TrackOutcome = Tracked | ThrewError(message: string) | ThrewOther

  /** The catch block of `handleImprove`: progress ends and the thrown message, or a generic one, is shown. */
  function AfterTrack(p: Progress, track: TrackOutcome): (q: Progress)
    ensures track.Tracked? ==> q == p
    ensures track.ThrewError? ==> q == p.(isImproving := false, improvementError := Some(track.message))
    ensures track.ThrewOther? ==> q == p.(isImproving := false, improvementError := Some("Unknown error occurred"))
  {
    match track
    case Tracked => p
    case ThrewError(message) => p.(isImproving := false, improvementError := Some(message))
    case ThrewOther => p.(isImproving := false, improvementError := Some("Unknown error occurred"))
  }

  /** `improvedContent.trim() || content.trim()`: what the Input button submits. */
  function SubmittedContent(improvedContent: string, content: string): (r: string)
    ensures Trim(improvedContent) != [] ==> r == Trim(improvedContent)
    ensures Trim(improvedContent) == [] ==> r == Trim(content)
  {
    var improved := Trim(improvedContent);
    if improved != [] then improved else Trim(content)
  }

  /** The Input button is disabled while loading, while improving, or when both texts are blank. */
  predicate InputButtonDisabled(isLoading: bool, content: string, improvedContent: string, isImproving: bool)
  {
    isLoading || (IsBlank(content) && IsBlank(improvedContent)) || isImproving
  }

  /**
   * An enabled Input button submits a non-empty text with no surrounding
   * whitespace. When both texts are blank the submitted text is "", which
   * the keyboard shortcut, calling the same handler without this check, can
   * submit.
   */
  lemma EnabledInputSubmitsText(isLoading: bool, content: string, improvedContent: string, isImproving: bool)
    ensures !InputButtonDisabled(isLoading, content, improvedContent, isImproving) ==>
              var r := SubmittedContent(improvedContent, content);
              r != [] && !IsJsWhitespace(r[0]) && !IsJsWhitespace(r[|r| - 1])
    ensures IsBlank(content) && IsBlank(improvedContent) ==> SubmittedContent(improvedContent, content) == []
  {
    BlankIffAllWhitespace(improvedContent);
    BlankIffAllWhitespace(content);
    var r := SubmittedContent(improvedContent, content);
    if Trim(improvedContent) == [] {
      assert r == Trim(content);
      if !InputButtonDisabled(isLoading, content, improvedContent, isImproving) {
        assert !IsBlank(content);
        assert r != [];
      }
    } else {
      assert r == Trim(improvedContent);
    }
  }

  /**
   * The props the dialog passes to the preview: its improvement state, and
   * the improve button disabled while loading or with blank content.
   */
  function PreviewPropsOf(p: Progress, content: string, isLoading: bool, isApiKeyConfigured: bool): (props: PreviewProps)
    ensures props.improvedContent == p.improvedContent && props.isImproving == p.isImproving
    ensures props.improvementError == p.improvementError && props.changeLog == p.changeLog
    ensures props.disabled == Some(isLoading || IsBlank(content))
    ensures props.isApiKeyConfigured == Some(isApiKeyConfigured)
  {
    PreviewProps(p.improvedContent, p.isImproving, p.improvementError, p.changeLog,
                 Some(isLoading || IsBlank(content)), Some(isApiKeyConfigured))
  }

  /**
   * An enabled improve button means the content is not blank, nothing is in
   * progress and an API key is configured, so `HandleImprove` gets past its
   * own guard whenever the service exists.
   */
  lemma EnabledImproveButtonAcceptsContent(p: Progress, content: string, isLoading: bool, isApiKeyConfigured: bool)
    ensures var v := Render(PreviewPropsOf(p, content, isLoading, isApiKeyConfigured));
            v.EditorView? && v.improveButton.Some? && !v.improveButton.value.disabled
            ==> !IsBlank(content) && !isLoading && !p.isImproving && isApiKeyConfigured
  {
  }

  /**
   * What the preview shows around a cancel. Right after it, the editor is
   * back with the improve button and no cancel button. The aborted call
   * still settles, though, and its rejection puts its message on the cleared
   * state, so a non-empty message replaces the editor with the error view;
   * a call that resolves anyway shows its text and change log.
   */
  lemma CancelledRequestOutcome(log: seq<ImproveLog>, settlement: Settlement, content: string,
                                isLoading: bool, isApiKeyConfigured: bool)
    ensures var v := Render(PreviewPropsOf(Progress(false, "", None, log), content, isLoading, isApiKeyConfigured));
            v.EditorView? && v.improveButton.Some? && !v.cancelButton
    ensures var q := Apply(Progress(false, "", None, log), Terminal(settlement));
            && (settlement.Rejected? ==> q == Progress(false, "", Some(settlement.error.message), log))
            && (settlement.Resolved? ==>
                  q == Progress(false, settlement.response.improvedPrompt, None, settlement.response.changeLog))
            && (settlement.Rejected? && settlement.error.message != [] ==>
                  Render(PreviewPropsOf(q, content, isLoading, isApiKeyConfigured)) == ErrorView(settlement.error.message))
  {
    assert IsBlank("");
  }

  class DialogController {
    /** The prompt the dialog was opened with. */
    const initialContent: string
    var content: string
    var isLoading: bool
    var improvedContent: string
    var isImproving: bool
    var improvementError: Option<string>
    var changeLog: seq<ImproveLog>
    var hoveredIndex: Option<int>
    /** `promptImproverRef.current` */
    var service: ImproverService?

    constructor (initialContent: string)
      ensures this.initialContent == initialContent && content == initialContent
      ensures !isLoading && improvedContent == "" && !isImproving && improvementError.None?
      ensures changeLog == [] && hoveredIndex.None? && service == null
    {
      this.initialContent := initialContent;
      content := initialContent;
      isLoading := false;
      improvedContent := "";
      isImproving := false;
      improvementError := None;
      changeLog := [];
      hoveredIndex := None;
      service := null;
    }

    /** The improvement state as one value. */
    function Snapshot(): Progress
      reads this
    {
      Progress(isImproving, improvedContent, improvementError, changeLog)
    }

    /**
     * The mount effect: create the service once and load its improvement
     * prompt; a service already there is kept.
     */
    method InitService(systemInstruction: string, defaultImprovementPrompt: string,
                       settings: ImprovePromptSettings, envUrl: Option<string>,
                       fetch: string -> FetchOutcome, cache: PromptCache)
      modifies this`service, cache
      ensures old(service) != null ==> service == old(service) && cache.View() == old(cache.View())
      ensures old(service) == null ==>
                && fresh(service) && service.Idle()
                && service.systemInstruction == systemInstruction
                && Resolution(service.improvementPrompt, cache.View())
                   == ResolveImprovementPrompt(settings, envUrl, fetch, old(cache.View()), defaultImprovementPrompt)
    {
      if service != null {
        return;
      }
      var s := new ImproverService(systemInstruction, defaultImprovementPrompt);
      s.LoadImprovementPromptWithPriority(settings, envUrl, fetch, cache);
      service := s;
    }

    /** Stop a request in progress: cancel the service and end progress. Otherwise nothing happens. */
    method CancelImprovement() returns (effects: seq<Effect>)
      modifies this`isImproving, service
      ensures old(isImproving) && service != null ==>
                && !isImproving && service.Idle()
                && effects == (if old(service.hasAbortController) then [Aborted] else [])
                              + (if old(service.hasTimeout) then [TimerCleared] else [])
      ensures !(old(isImproving) && service != null) ==> isImproving == old(isImproving) && effects == []
      ensures service != null && !(old(isImproving)) ==>
                service.hasAbortController == old(service.hasAbortController) && service.hasTimeout == old(service.hasTimeout)
      ensures service != null ==> service.improvementPrompt == old(service.improvementPrompt)
    {
      effects := [];
      if isImproving && service != null {
        effects := service.Cancel();
        isImproving := false;
      }
    }

    /** The cancel button of the preview: cancel, then clear the text and the error. */
    method HandleCancelImprovement() returns (effects: seq<Effect>)
      modifies this`isImproving, this`improvedContent, this`improvementError, service
      ensures improvedContent == "" && improvementError.None?
      ensures old(isImproving) && service != null ==>
                && !isImproving && service.Idle()
                && effects == (if old(service.hasAbortController) then [Aborted] else [])
                              + (if old(service.hasTimeout) then [TimerCleared] else [])
      ensures !(old(isImproving) && service != null) ==> isImproving == old(isImproving) && effects == []
      ensures service != null ==> service.improvementPrompt == old(service.improvementPrompt)
      ensures changeLog == old(changeLog)
    {
      effects := CancelImprovement();
      improvedContent := "";
      improvementError := None;
    }

    /**
     * The click on the improve button, up to where `handleImprove` first
     * waits. Blank content, or no service yet, does nothing. Otherwise
     * progress starts with an empty text and no error and the service is
     * called. A client that is not ready fails at once: its `onError` and
     * then the analytics outcome apply. Otherwise the request is in flight
     * (`pending`), holding both handles, and the steps below continue it.
     */
    method HandleImprove(clientReady: bool, track: TrackOutcome) returns (effects: seq<Effect>, pending: bool)
      modifies this`isImproving, this`improvedContent, this`improvementError, this`changeLog, service
      ensures IsBlank(content) || service == null ==> effects == [] && !pending && Snapshot() == old(Snapshot())
      ensures !IsBlank(content) && service != null ==>
                && pending == clientReady
                && (clientReady ==>
                      && effects == Prologue(service.improvementPrompt, service.systemInstruction, content)
                      && service.hasAbortController && service.hasTimeout
                      && Snapshot() == Progress(true, "", None, old(changeLog)))
                && (!clientReady ==>
                      && effects == [Failed(API_KEY_ERROR)]
                      && service.hasAbortController == old(service.hasAbortController)
                      && service.hasTimeout == old(service.hasTimeout)
                      && Snapshot() == AfterTrack(Progress(false, "", Some(API_KEY_ERROR.message), old(changeLog)), track))
      ensures service != null ==> service.improvementPrompt == old(service.improvementPrompt)
    {
      if IsBlank(content) || service == null {
        return [], false;
      }
      BeginImprovement();
      var s := service;
      effects, pending := s.ImprovePrompt(content, clientReady);
      if !pending {
        // the returned promise settled at once: the analytics call follows
        Show(AfterTrack(Apply(Snapshot(), effects[0]), track));
      }
    }

    /** Progress starts with an empty text and no error. */
    method BeginImprovement()
      modifies this`isImproving, this`improvedContent, this`improvementError
      ensures Snapshot() == Progress(true, "", None, old(changeLog))
    {
      isImproving := true;
      improvedContent := "";
      improvementError := None;
    }

    /** Set the improvement state to `p`. */
    method Show(p: Progress)
      modifies this`isImproving, this`improvedContent, this`improvementError, this`changeLog
      ensures Snapshot() == p
    {
      isImproving := p.isImproving;
      improvedContent := p.improvedContent;
      improvementError := p.improvementError;
      changeLog := p.changeLog;
    }

    /** The client reports a chunk: the service forwards it and `onStream` appends it to the text. */
    method OnProgress(chunk: Option<string>) returns (effects: seq<Effect>)
      modifies this`improvedContent
      ensures effects == Forwarded([chunk])
      ensures Snapshot() == Replay(old(Snapshot()), effects)
      ensures improvedContent == old(improvedContent) + chunk.GetOr("")
    {
      effects := [Streamed(chunk.GetOr(""))];
      improvedContent := improvedContent + chunk.GetOr("");
      assert effects[1..] == [];
    }

    /** The service's timer fires: it cancels, and its `onError(TIMEOUT)` ends progress with that message. */
    method OnTimeout() returns (effects: seq<Effect>)
      requires service != null && service.hasTimeout
      modifies this`isImproving, this`improvementError, service
      ensures service.Idle() && service.improvementPrompt == old(service.improvementPrompt)
      ensures effects == (if old(service.hasAbortController) then [Aborted] else []) + [TimerCleared, Failed(TIMEOUT_ERROR)]
      ensures Snapshot() == Apply(old(Snapshot()), Failed(TIMEOUT_ERROR))
    {
      var s := service;
      effects := s.OnTimeout();
      isImproving := false;
      improvementError := Some(TIMEOUT_ERROR.message);
    }

    /**
     * The client's call settles: the service clears its timer and calls
     * `onComplete` or `onError`, which update the state; then the analytics
     * outcome applies.
     */
    method OnSettled(settlement: Settlement, track: TrackOutcome) returns (effects: seq<Effect>)
      requires service != null
      modifies this`isImproving, this`improvedContent, this`improvementError, this`changeLog, service
      ensures service.Idle() && service.improvementPrompt == old(service.improvementPrompt)
      ensures effects == (if old(service.hasTimeout) then [TimerCleared] else []) + [Terminal(settlement)]
      ensures Snapshot() == AfterTrack(Apply(old(Snapshot()), Terminal(settlement)), track)
    {
      var before := Snapshot();
      var s := service;
      effects := s.Settle(settlement);
      Show(AfterTrack(Apply(before, Terminal(settlement)), track));
    }

    /**
     * One improvement as the browser delivers it: the click, the client's
     * progress chunks one after another, then the timer firing, the user's
     * cancel button or neither, then the call settling and the analytics
     * call. The effects are the service's `RequestTrace`. Without a cancel
     * the state is its callbacks replayed from the start of progress; after
     * a cancel the aborted call's settlement still applies, to the cleared
     * state the cancel left.
     */
    method Session(clientReady: bool, run: ClientRun, track: TrackOutcome) returns (effects: seq<Effect>)
      modifies this`isImproving, this`improvedContent, this`improvementError, this`changeLog, service
      ensures IsBlank(content) || service == null ==> effects == [] && Snapshot() == old(Snapshot())
      ensures !IsBlank(content) && service != null && !clientReady ==>
                && effects == [Failed(API_KEY_ERROR)]
                && Snapshot() == AfterTrack(Progress(false, "", Some(API_KEY_ERROR.message), old(changeLog)), track)
      ensures !IsBlank(content) && service != null && clientReady ==>
                && service.Idle()
                && effects == RequestTrace(service.improvementPrompt, service.systemInstruction, content, run)
                && (run.interruption != CallerCancelled ==>
                      Snapshot() == AfterTrack(Replay(Progress(true, "", None, old(changeLog)), Callbacks(effects)), track))
                && (run.interruption == CallerCancelled ==>
                      Snapshot() == AfterTrack(Apply(Progress(false, "", None, old(changeLog)), Terminal(run.settlement)), track))
    {
      var pending;
      effects, pending := HandleImprove(clientReady, track);
      if !pending {
        return;
      }
      ghost var started := Snapshot();
      var streamed := StreamChunks(run.chunks);
      var cut := Interrupt(run.interruption);
      var settled := OnSettled(run.settlement, track);
      assert settled == SettleTrace(run.interruption != Uninterrupted, run.settlement);
      effects := effects + streamed + cut + settled;
      if run.interruption != CallerCancelled {
        RequestCallbacks(service.improvementPrompt, service.systemInstruction, content, run);
        CallbacksReplay(started, run.chunks, run.interruption == TimedOut, run.settlement);
      }
    }

    /** The client reports its progress chunks one after another, each through `OnProgress`. */
    method StreamChunks(chunks: seq<Option<string>>) returns (effects: seq<Effect>)
      modifies this`improvedContent
      ensures effects == Forwarded(chunks)
      ensures Snapshot() == Replay(old(Snapshot()), effects)
    {
      ghost var start := Snapshot();
      effects := [];
      var i := 0;
      while i < |chunks|
        invariant 0 <= i <= |chunks|
        invariant effects == Forwarded(chunks[..i])
        invariant Snapshot() == Replay(start, effects)
      {
        var e := OnProgress(chunks[i]);
        ForwardedStep(chunks, i);
        ReplayAppend(start, effects, e);
        effects := effects + e;
        i := i + 1;
      }
      assert chunks[..i] == chunks;
    }

    /**
     * What can come between the chunks and the settlement of a request in
     * flight: nothing, the timer firing, or the user's cancel button.
     */
    method Interrupt(interruption: Interruption) returns (effects: seq<Effect>)
      requires service != null && service.hasAbortController && service.hasTimeout && isImproving
      modifies this`isImproving, this`improvedContent, this`improvementError, service
      ensures effects == InterruptTrace(interruption)
      ensures service.hasTimeout == (interruption == Uninterrupted)
      ensures service.improvementPrompt == old(service.improvementPrompt)
      ensures interruption == Uninterrupted ==> Snapshot() == old(Snapshot())
      ensures interruption == TimedOut ==> Snapshot() == Apply(old(Snapshot()), Failed(TIMEOUT_ERROR))
      ensures interruption == CallerCancelled ==>
                Snapshot() == old(Snapshot()).(isImproving := false, improvedContent := "", improvementError := None)
    {
      effects := [];
      match interruption {
        case TimedOut =>
          effects := OnTimeout();
        case CallerCancelled =>
          effects := HandleCancelImprovement();
        case Uninterrupted =>
      }
    }

    /**
     * The close effect: restore the content, clear the text, the error, the
     * change log and the hovered entry, and cancel a request in progress.
     */
    method Close() returns (effects: seq<Effect>)
      modifies this`content, this`improvedContent, this`improvementError, this`changeLog,
               this`hoveredIndex, this`isImproving, service
      ensures content == initialContent && improvedContent == "" && improvementError.None?
      ensures changeLog == [] && hoveredIndex.None?
      ensures old(isImproving) && service != null ==>
                && !isImproving && service.Idle()
                && effects == (if old(service.hasAbortController) then [Aborted] else [])
                              + (if old(service.hasTimeout) then [TimerCleared] else [])
      ensures !(old(isImproving) && service != null) ==> isImproving == old(isImproving) && effects == []
      ensures service != null ==> service.improvementPrompt == old(service.improvementPrompt)
    {
      content := initialContent;
      improvedContent := "";
      improvementError := None;
      changeLog := [];
      hoveredIndex := None;
      effects := CancelImprovement();
    }

    /**
     * The Input button or its shortcut: the analytics call comes first, and
     * only when it succeeds is the trimmed improved text, else the trimmed
     * content, passed to `onInput`. A throwing analytics call submits
     * nothing; loading ends either way.
     */
    method HandleInput(track: TrackOutcome) returns (submitted: Option<string>)
      modifies this`isLoading
      ensures track.Tracked? ==> submitted == Some(SubmittedContent(improvedContent, content))
      ensures !track.Tracked? ==> submitted.None?
      ensures !isLoading
    {
      isLoading := true;
      var contentToUse := SubmittedContent(improvedContent, content);
      if track.Tracked? {
        submitted := Some(contentToUse);
      } else {
        submitted := None;
      }
      // finally
      isLoading := false;
    }

    /** The editor's change handler. */
    method SetContent(text: string)
      modifies this`content
      ensures content == text
    {
      content := text;
    }

    /** The explanation panel's hover handler. */
    method SetHoveredIndex(index: Option<int>)
      modifies this`hoveredIndex
      ensures hoveredIndex == index
    {
      hoveredIndex := index;
    }
  }

  /**
   * Closing the dialog while a request is in flight. The close effect
   * clears the state and cancels; `setIsImproving(false)` gives
   * `cancelImprovement` a new identity, so after the next commit the close
   * effect runs once more and clears the state again, now without a
   * cancel. The aborted call still settles, and its `onError` or
   * `onComplete` survives only when it comes after that second run
   * (`settledBeforeRerun` false); when it comes before, the second run
   * erases it.
   */
  method ClosedMidRequest(initialContent: string, settlement: Settlement, settledBeforeRerun: bool)
    returns (shown: Progress)
    ensures !IsBlank(initialContent) && settledBeforeRerun ==> shown == Progress(false, "", None, [])
    ensures !IsBlank(initialContent) && !settledBeforeRerun ==>
              shown == Apply(Progress(false, "", None, []), Terminal(settlement))
    ensures !IsBlank(initialContent) && settlement.Rejected? ==>
              (shown.improvementError == Some(settlement.error.message) <==> !settledBeforeRerun)
  {
    var d := new DialogController(initialContent);
    var cache := new PromptCache(None, None);
    d.InitService("", "", ImprovePromptSettings(TextMode, "", ""), None, (url: string) => NetworkFailure, cache);
    var started, pending := d.HandleImprove(true, Tracked);
    shown := d.Snapshot();
    if !pending {
      return;
    }
    var cancelled := d.Close();
    if settledBeforeRerun {
      var settled := d.OnSettled(settlement, Tracked);
      var rerun := d.Close();
    } else {
      var rerun := d.Close();
      var settled := d.OnSettled(settlement, Tracked);
    }
    shown := d.Snapshot();
  }
}
