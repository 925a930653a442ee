/**
 * The prompt improver service: one object that validates a prompt, sends it
 * with the configured improvement prompt to the AI client, forwards the
 * streamed chunks, and keeps an abort handle and a timeout handle that it
 * releases on every way out. It also resolves which improvement prompt to
 * send, through a four-tier priority chain with a cached URL fetch.
 *
 * The AI client, `fetch`, the cache and the settings storage are not part of
 * this model: what they do is passed in (`clientReady`, a `ClientRun`, a
 * `fetch` function, a `PromptCache` object, an `ImprovePromptSettings` value).
 * Instead of calling back, the service returns the list of observable effects
 * of a call, in the order they happen.
 */
module Improver {
  import opened Wrappers
  import opened JsText

  /** Milliseconds before an unanswered request is abandoned. */
  const DEFAULT_TIMEOUT: nat := 30000

  /** One change reported by the AI: a 1-based inclusive line range of the improved text. */
  datatype ImproveLog = ImproveLog(startLine: int, endLine: int, description: string, benefit: string)

  /** The structured result of a request. */
  datatype ImproveResponse = ImproveResponse(improvedPrompt: string, changeLog: seq<ImproveLog>)

  /** The error kinds the service itself raises. */
  datatype GeminiErrorType = ApiError | ApiKeyMissing | Timeout

  datatype ImproveError =
    | GeminiError(message: string, kind: GeminiErrorType)
      /** Anything else the client rejects with, the error of an aborted request included. */
    | ClientError(message: string)

  const EMPTY_PROMPT_ERROR := GeminiError("Prompt cannot be empty", ApiError)
  const API_KEY_ERROR := GeminiError("API key not configured. Please set your API key in settings.", ApiKeyMissing)
  const TIMEOUT_ERROR := GeminiError("Request timed out. Please try again.", Timeout)

  /** The markers around the user's prompt in the request text. */
  const PROMPT_OPEN := "\n\n<user_prompt>\n"
  const PROMPT_CLOSE := "\n</user_prompt>"

  /**
   * The request text: the improvement prompt, then the user's prompt between
   * the opening and closing marker, each piece at its own place.
   */
  function UserContent(improvementPrompt: string, prompt: string): (r: string)
    ensures |r| == |improvementPrompt| + |PROMPT_OPEN| + |prompt| + |PROMPT_CLOSE|
    ensures r[..|improvementPrompt|] == improvementPrompt
    ensures r[|improvementPrompt|..|improvementPrompt| + |PROMPT_OPEN|] == PROMPT_OPEN
    ensures r[|improvementPrompt| + |PROMPT_OPEN|..|r| - |PROMPT_CLOSE|] == prompt
    ensures r[|r| - |PROMPT_CLOSE|..] == PROMPT_CLOSE
  {
    var r := improvementPrompt + PROMPT_OPEN + prompt + PROMPT_CLOSE;
    assert r[..|improvementPrompt|] == improvementPrompt;
    assert r[|improvementPrompt|..|improvementPrompt| + |PROMPT_OPEN|] == PROMPT_OPEN;
    assert r[|improvementPrompt| + |PROMPT_OPEN|..|r| - |PROMPT_CLOSE|] == prompt;
    r
  }

  /** What a service call does that someone else can observe. */
  datatype Effect =
    | TimerStarted(ms: nat)
    | TimerCleared
    | Aborted
    | Requested(userContent: string, systemInstruction: string)
      /** `onStream(chunk)` */
    | Streamed(chunk: string)
      /** `onComplete(improvedPrompt, changeLog)` */
    | Completed(improvedPrompt: string, changeLog: seq<ImproveLog>)
      /** `onError(error)` */
    | Failed(error: ImproveError)

  /** The effects that are calls of the caller's callbacks. */
  predicate IsCallback(e: Effect)
  {
    e.Streamed? || e.Completed? || e.Failed?
  }

  /** How the client's streaming call settles. */
  datatype Settlement = Resolved(response: ImproveResponse) | Rejected(error: ImproveError)

  /**
   * What cuts a request short before the client's call settles: nothing, the
   * 30-second timer firing, or the caller's `cancel()` (the dialog's cancel
   * button, its close effect or its unmount).
   */
  datatype Interruption = Uninterrupted | TimedOut | CallerCancelled

  /**
   * One run of the client's streaming call: the progress chunks it reports
   * (`None` for a null chunk), what interrupts it after those chunks and
   * before it settles, and how it settles.
   */
  datatype ClientRun = ClientRun(chunks: seq<Option<string>>, interruption: Interruption, settlement: Settlement)

  /** Each progress chunk becomes one `onStream` call, in order; a null or empty chunk is passed as "". */
  function Forwarded(chunks: seq<Option<string>>): (r: seq<Effect>)
    ensures |r| == |chunks|
    ensures forall i :: 0 <= i < |r| ==> r[i] == Streamed(chunks[i].GetOr(""))
  {
    if chunks == [] then [] else [Streamed(chunks[0].GetOr(""))] + Forwarded(chunks[1..])
  }

  /** The callback that ends a request: `onComplete` with the response on success, `onError` with the error on failure. */
  function Terminal(s: Settlement): (e: Effect)
    ensures IsCallback(e) && !e.Streamed?
    ensures e.Completed? <==> s.Resolved?
    ensures s.Resolved? ==> e == Completed(s.response.improvedPrompt, s.response.changeLog)
    ensures s.Rejected? ==> e == Failed(s.error)
  {
    match s
    case Resolved(response) => Completed(response.improvedPrompt, response.changeLog)
    case Rejected(error) => Failed(error)
  }

  /** What an accepted call does first: start the timer, then send the request text with the system instruction. */
  function Prologue(improvementPrompt: string, systemInstruction: string, prompt: string): (r: seq<Effect>)
    ensures |r| == 2 && r[0] == TimerStarted(DEFAULT_TIMEOUT)
    ensures r[1] == Requested(UserContent(improvementPrompt, prompt), systemInstruction)
    ensures forall i :: 0 <= i < |r| ==> !IsCallback(r[i])
  {
    [TimerStarted(DEFAULT_TIMEOUT), Requested(UserContent(improvementPrompt, prompt), systemInstruction)]
  }

  /**
   * What an interruption does while the call is in flight: `cancel()` aborts
   * and clears the timer, and the timer's callback then adds `onError(TIMEOUT)`.
   */
  function InterruptTrace(i: Interruption): seq<Effect>
  {
    match i
    case Uninterrupted => []
    case TimedOut => [Aborted, TimerCleared, Failed(TIMEOUT_ERROR)]
    case CallerCancelled => [Aborted, TimerCleared]
  }

  /** What happens when the client's call settles: clear the timer if still set, then the terminal callback. */
  function SettleTrace(interrupted: bool, settlement: Settlement): seq<Effect>
  {
    (if interrupted then [] else [TimerCleared]) + [Terminal(settlement)]
  }

  /**
   * Everything an accepted `improvePrompt` call does, in order: the prologue,
   * the forwarded chunks, the interruption if any, and the settling.
   */
  function RequestTrace(improvementPrompt: string, systemInstruction: string, prompt: string, run: ClientRun): seq<Effect>
  {
    Prologue(improvementPrompt, systemInstruction, prompt) + Forwarded(run.chunks)
    + InterruptTrace(run.interruption) + SettleTrace(run.interruption != Uninterrupted, run.settlement)
  }

  /** The callback calls of a list of effects, in order. */
  function Callbacks(t: seq<Effect>): (r: seq<Effect>)
    ensures |r| <= |t|
    ensures forall i :: 0 <= i < |r| ==> IsCallback(r[i])
  {
    if t == [] then [] else (if IsCallback(t[0]) then [t[0]] else []) + Callbacks(t[1..])
  }

  /** How many effects of a list satisfy `p`. */
  function Count(t: seq<Effect>, p: Effect -> bool): nat
  {
    if t == [] then 0 else (if p(t[0]) then 1 else 0) + Count(t[1..], p)
  }

  lemma {:induction false} CallbacksAppend(a: seq<Effect>, b: seq<Effect>)
    ensures Callbacks(a + b) == Callbacks(a) + Callbacks(b)
  {
    if a == [] {
      assert a + b == b;
    } else {
      assert (a + b)[0] == a[0];
      assert (a + b)[1..] == a[1..] + b;
      CallbacksAppend(a[1..], b);
    }
  }

  lemma {:induction false} CountAppend(a: seq<Effect>, b: seq<Effect>, p: Effect -> bool)
    ensures Count(a + b, p) == Count(a, p) + Count(b, p)
  {
    if a == [] {
      assert a + b == b;
    } else {
      assert (a + b)[0] == a[0];
      assert (a + b)[1..] == a[1..] + b;
      CountAppend(a[1..], b, p);
    }
  }

  lemma {:induction false} ForwardedAreCallbacks(chunks: seq<Option<string>>)
    ensures Callbacks(Forwarded(chunks)) == Forwarded(chunks)
  {
    if chunks != [] {
      var f := Forwarded(chunks);
      assert f[1..] == Forwarded(chunks[1..]);
      ForwardedAreCallbacks(chunks[1..]);
    }
  }

  lemma {:induction false} ForwardedStreamsOnly(chunks: seq<Option<string>>, p: Effect -> bool)
    requires forall e: Effect :: e.Streamed? ==> !p(e)
    ensures Count(Forwarded(chunks), p) == 0
  {
    if chunks != [] {
      var f := Forwarded(chunks);
      assert f[1..] == Forwarded(chunks[1..]);
      ForwardedStreamsOnly(chunks[1..], p);
    }
  }

  lemma {:induction false} CallbacksOfNone(t: seq<Effect>)
    requires forall i :: 0 <= i < |t| ==> !IsCallback(t[i])
    ensures Callbacks(t) == []
  {
    if t != [] {
      CallbacksOfNone(t[1..]);
    }
  }

  lemma {:induction false} CountOfNone(t: seq<Effect>, p: Effect -> bool)
    requires forall i :: 0 <= i < |t| ==> !p(t[i])
    ensures Count(t, p) == 0
  {
    if t != [] {
      CountOfNone(t[1..], p);
    }
  }

  lemma CountSingle(e: Effect, p: Effect -> bool)
    ensures Count([e], p) == if p(e) then 1 else 0
  {
    assert [e][1..] == [];
  }

  /**
   * The callbacks an accepted request makes: `onStream` once per chunk, in
   * order, then `onError(TIMEOUT)` if the timer fired, then exactly one
   * terminal callback, also after the caller cancelled. Given that the
   * client sends no chunk after the abort, no `onStream` follows an
   * `onError` or `onComplete`.
   */
  lemma RequestCallbacks(improvementPrompt: string, systemInstruction: string, prompt: string, run: ClientRun)
    ensures Callbacks(RequestTrace(improvementPrompt, systemInstruction, prompt, run))
            == Forwarded(run.chunks) + (if run.interruption == TimedOut then [Failed(TIMEOUT_ERROR)] else [])
               + [Terminal(run.settlement)]
  {
    var head := Prologue(improvementPrompt, systemInstruction, prompt);
    var f := Forwarded(run.chunks);
    var cut := InterruptTrace(run.interruption);
    var settle := SettleTrace(run.interruption != Uninterrupted, run.settlement);
    ForwardedAreCallbacks(run.chunks);
    CallbacksOfNone(head);
    CallbacksAppend(head, f);
    assert Callbacks(head + f) == f;
    InterruptCallbacks(run.interruption);
    CallbacksAppend(head + f, cut);
    SettleCallbacks(run.interruption != Uninterrupted, run.settlement);
    CallbacksAppend(head + f + cut, settle);
  }

  /** The only callback an interruption makes is the timer's `onError(TIMEOUT)`. */
  lemma InterruptCallbacks(i: Interruption)
    ensures Callbacks(InterruptTrace(i)) == if i == TimedOut then [Failed(TIMEOUT_ERROR)] else []
  {
    var quiet := [Aborted, TimerCleared];
    CallbacksOfNone(quiet);
    if i == TimedOut {
      CallbacksAppend(quiet, [Failed(TIMEOUT_ERROR)]);
      assert [Failed(TIMEOUT_ERROR)][1..] == [];
      assert InterruptTrace(i) == quiet + [Failed(TIMEOUT_ERROR)];
    }
  }

  /** The only callback of the settling is the terminal one. */
  lemma SettleCallbacks(interrupted: bool, settlement: Settlement)
    ensures Callbacks(SettleTrace(interrupted, settlement)) == [Terminal(settlement)]
  {
    var last := [Terminal(settlement)];
    assert last[1..] == [];
    assert Callbacks(last) == last;
    if !interrupted {
      CallbacksOfNone([TimerCleared]);
      CallbacksAppend([TimerCleared], last);
    }
  }

  /**
   * `onError` is called once when the request fails and `onComplete` once when
   * it succeeds, except that a fired timer adds one more `onError`: after a
   * timeout the caller hears both the timeout and the settlement of the
   * aborted call. A cancel by the caller adds no callback of its own, so the
   * aborted call's settlement is still reported.
   */
  lemma RequestTerminalCounts(improvementPrompt: string, systemInstruction: string, prompt: string, run: ClientRun)
    ensures Count(RequestTrace(improvementPrompt, systemInstruction, prompt, run), (e: Effect) => e.Failed?)
            == (if run.interruption == TimedOut then 1 else 0) + (if run.settlement.Rejected? then 1 else 0)
    ensures Count(RequestTrace(improvementPrompt, systemInstruction, prompt, run), (e: Effect) => e.Completed?)
            == (if run.settlement.Resolved? then 1 else 0)
  {
    TraceCount(improvementPrompt, systemInstruction, prompt, run, (e: Effect) => e.Failed?);
    TraceCount(improvementPrompt, systemInstruction, prompt, run, (e: Effect) => e.Completed?);
  }

  /** A predicate that no `onStream` satisfies is met only by the interruption's and the settling's effects. */
  lemma TraceCount(improvementPrompt: string, systemInstruction: string, prompt: string, run: ClientRun, p: Effect -> bool)
    requires forall e: Effect :: e.Streamed? ==> !p(e)
    requires !p(TimerStarted(DEFAULT_TIMEOUT)) && !p(Requested(UserContent(improvementPrompt, prompt), systemInstruction))
    requires !p(Aborted) && !p(TimerCleared)
    ensures Count(RequestTrace(improvementPrompt, systemInstruction, prompt, run), p)
            == (if run.interruption == TimedOut && p(Failed(TIMEOUT_ERROR)) then 1 else 0)
               + (if p(Terminal(run.settlement)) then 1 else 0)
  {
    var head := Prologue(improvementPrompt, systemInstruction, prompt);
    var f := Forwarded(run.chunks);
    var cut := InterruptTrace(run.interruption);
    var settle := SettleTrace(run.interruption != Uninterrupted, run.settlement);
    ForwardedStreamsOnly(run.chunks, p);
    CountOfNone(head, p);
    CountAppend(head, f, p);
    InterruptCount(run.interruption, p);
    CountAppend(head + f, cut, p);
    SettleCount(run.interruption != Uninterrupted, run.settlement, p);
    CountAppend(head + f + cut, settle, p);
  }

  lemma InterruptCount(i: Interruption, p: Effect -> bool)
    requires !p(Aborted) && !p(TimerCleared)
    ensures Count(InterruptTrace(i), p) == if i == TimedOut && p(Failed(TIMEOUT_ERROR)) then 1 else 0
  {
    var quiet := [Aborted, TimerCleared];
    CountOfNone(quiet, p);
    if i == TimedOut {
      CountAppend(quiet, [Failed(TIMEOUT_ERROR)], p);
      CountSingle(Failed(TIMEOUT_ERROR), p);
      assert InterruptTrace(i) == quiet + [Failed(TIMEOUT_ERROR)];
    }
  }

  lemma SettleCount(interrupted: bool, settlement: Settlement, p: Effect -> bool)
    requires !p(TimerCleared)
    ensures Count(SettleTrace(interrupted, settlement), p) == if p(Terminal(settlement)) then 1 else 0
  {
    var last := [Terminal(settlement)];
    CountSingle(Terminal(settlement), p);
    if !interrupted {
      CountAppend([TimerCleared], last, p);
      CountSingle(TimerCleared, p);
    }
  }

  /**
   * An accepted request starts the timer first and has cleared it again
   * before its last effect, which is the terminal callback; the abort
   * handle is used exactly when the timer fires or the caller cancels.
   */
  lemma RequestReleasesTimer(improvementPrompt: string, systemInstruction: string, prompt: string, run: ClientRun)
    ensures var t := RequestTrace(improvementPrompt, systemInstruction, prompt, run);
            && t[0] == TimerStarted(DEFAULT_TIMEOUT)
            && t[|t| - 2] == (if run.interruption == TimedOut then Failed(TIMEOUT_ERROR) else TimerCleared)
            && TimerCleared in t[1..|t| - 1]
            && t[|t| - 1] == Terminal(run.settlement)
            && (Aborted in t <==> run.interruption != Uninterrupted)
  {
    var t := RequestTrace(improvementPrompt, systemInstruction, prompt, run);
    var n := |Forwarded(run.chunks)|;
    match run.interruption
    case TimedOut =>
      assert t[2 + n] == Aborted;
      assert t[2 + n + 1] == TimerCleared;
      assert t[1..|t| - 1][2 + n] == TimerCleared;
    case CallerCancelled =>
      assert t[2 + n] == Aborted;
      assert t[2 + n + 1] == TimerCleared;
      assert t[1..|t| - 1][2 + n] == TimerCleared;
    case Uninterrupted =>
      assert t[2 + n] == TimerCleared;
      assert t[1..|t| - 1][1 + n] == TimerCleared;
      assert forall i :: 0 <= i < |t| ==> t[i] != Aborted;
  }

  /** Where the improvement prompt comes from when the settings say so. */
  datatype PromptMode = TextMode | UrlMode

  /** The stored improvement prompt settings. */
  datatype ImprovePromptSettings = ImprovePromptSettings(mode: PromptMode, textContent: string, urlContent: string)

  /** What `fetch(url)` does: a response (ok or not, with its body text) or a thrown network error. */
  datatype FetchOutcome = Response(ok: bool, status: int, body: string) | NetworkFailure

  predicate FetchSucceeded(f: FetchOutcome)
  {
    f.Response? && f.ok
  }

  /** A snapshot of the prompt cache: today's entry and the most recent entry of any day. */
  datatype CacheView = CacheView(today: Option<string>, latest: Option<string>)

  /**
   * The cache of fetched improvement prompts. Saving makes the text both
   * today's entry and the latest entry.
   */
  class PromptCache {
    var today: Option<string>
    var latest: Option<string>

    constructor (today: Option<string>, latest: Option<string>)
      ensures this.today == today && this.latest == latest
    {
      this.today := today;
      this.latest := latest;
    }

    function View(): CacheView
      reads this
    {
      CacheView(today, latest)
    }

    method SaveCache(text: string)
      modifies this
      ensures today == Some(text) && latest == Some(text)
    {
      today := Some(text);
      latest := Some(text);
    }
  }

  /**
   * The URL fallback chain: today's cache when truthy, else the fetched text
   * when the fetch succeeds (even an empty one), else the latest cache when
   * truthy, else null.
   */
  function UrlFallback(cache: CacheView, fetched: FetchOutcome): (r: Option<string>)
    ensures Truthy(cache.today) ==> r == cache.today
    ensures !Truthy(cache.today) && FetchSucceeded(fetched) ==> r == Some(fetched.body)
    ensures !Truthy(cache.today) && !FetchSucceeded(fetched) ==> r == (if Truthy(cache.latest) then cache.latest else None)
    ensures r.None? <==> !Truthy(cache.today) && !FetchSucceeded(fetched) && !Truthy(cache.latest)
  {
    if Truthy(cache.today) then cache.today
    else if FetchSucceeded(fetched) then Some(fetched.body)
    else if Truthy(cache.latest) then cache.latest
    else None
  }

  /** The cache after the fallback chain: changed only by a fetch that was tried and succeeded. */
  function CacheAfter(cache: CacheView, fetched: FetchOutcome): (c: CacheView)
    ensures Truthy(cache.today) || !FetchSucceeded(fetched) ==> c == cache
    ensures !Truthy(cache.today) && FetchSucceeded(fetched) ==> c == CacheView(Some(fetched.body), Some(fetched.body))
  {
    if !Truthy(cache.today) && FetchSucceeded(fetched) then CacheView(Some(fetched.body), Some(fetched.body)) else cache
  }

  /** The text of a URL tier, if it yields one, and the cache after trying it. */
  datatype TierResult = TierResult(prompt: Option<string>, cache: CacheView)

  function UrlTier(url: string, fetch: string -> FetchOutcome, cache: CacheView): TierResult
  {
    TierResult(UrlFallback(cache, fetch(url)), CacheAfter(cache, fetch(url)))
  }

  /** The improvement prompt chosen and the cache left behind. */
  datatype Resolution = Resolution(prompt: string, cache: CacheView)

  /**
   * The priority chain: the user's text when in text mode and not blank;
   * otherwise the user's URL when in URL mode, not blank, and its chain
   * yields a truthy text; otherwise the build-time URL when set and its chain
   * yields a truthy text; otherwise the default prompt.
   */
  function ResolveImprovementPrompt(settings: ImprovePromptSettings, envUrl: Option<string>,
                                    fetch: string -> FetchOutcome, cache: CacheView, default: string): (r: Resolution)
    ensures settings.mode == TextMode && !IsBlank(settings.textContent) ==> r == Resolution(settings.textContent, cache)
    ensures !(settings.mode == TextMode && !IsBlank(settings.textContent)) ==>
              var tried := settings.mode == UrlMode && !IsBlank(settings.urlContent);
              var user := if tried then UrlFallback(cache, fetch(settings.urlContent)) else None;
              var userCache := if tried then CacheAfter(cache, fetch(settings.urlContent)) else cache;
              var env := if Truthy(envUrl) then UrlFallback(userCache, fetch(envUrl.value)) else None;
              var envCache := if Truthy(envUrl) then CacheAfter(userCache, fetch(envUrl.value)) else userCache;
              && (Truthy(user) ==> r == Resolution(user.value, userCache))
              && (!Truthy(user) && Truthy(env) ==> r == Resolution(env.value, envCache))
              && (!Truthy(user) && !Truthy(env) ==> r == Resolution(default, envCache))
  {
    if settings.mode == TextMode && !IsBlank(settings.textContent) then
      Resolution(settings.textContent, cache)
    else
      var user := if settings.mode == UrlMode && !IsBlank(settings.urlContent)
                  then UrlTier(settings.urlContent, fetch, cache) else TierResult(None, cache);
      if Truthy(user.prompt) then
        Resolution(user.prompt.value, user.cache)
      else if Truthy(envUrl) then
        var env := UrlTier(envUrl.value, fetch, user.cache);
        if Truthy(env.prompt) then Resolution(env.prompt.value, env.cache) else Resolution(default, env.cache)
      else
        Resolution(default, user.cache)
  }

  /**
   * A blank user text, a user URL whose chain yields nothing truthy and no
   * build-time URL end at the default prompt; and whatever the chain picks
   * that is not the default is not empty.
   */
  lemma ResolvedPromptIsDefaultOrNonEmpty(settings: ImprovePromptSettings, envUrl: Option<string>,
                                          fetch: string -> FetchOutcome, cache: CacheView, default: string)
    ensures var r := ResolveImprovementPrompt(settings, envUrl, fetch, cache, default);
            r.prompt == default || r.prompt != []
    ensures !Truthy(envUrl) && !(settings.mode == TextMode && !IsBlank(settings.textContent))
            && !(settings.mode == UrlMode && !IsBlank(settings.urlContent) && Truthy(UrlTier(settings.urlContent, fetch, cache).prompt))
            ==> ResolveImprovementPrompt(settings, envUrl, fetch, cache, default).prompt == default
  {
    if settings.mode == TextMode && !IsBlank(settings.textContent) {
      assert settings.textContent != [];
    }
  }

  /**
   * The cache is not keyed by URL: once today's entry is truthy, a chain that
   * reaches a URL tier ends with that entry whatever the URLs are, and
   * nothing is fetched.
   */
  lemma TodaysCacheShadowsUrls(settings: ImprovePromptSettings, envUrl: Option<string>,
                               fetch: string -> FetchOutcome, cache: CacheView, default: string)
    requires !(settings.mode == TextMode && !IsBlank(settings.textContent))
    requires (settings.mode == UrlMode && !IsBlank(settings.urlContent)) || Truthy(envUrl)
    requires Truthy(cache.today)
    ensures ResolveImprovementPrompt(settings, envUrl, fetch, cache, default) == Resolution(cache.today.value, cache)
  {
    if settings.mode == UrlMode && !IsBlank(settings.urlContent) {
      assert UrlTier(settings.urlContent, fetch, cache) == TierResult(cache.today, cache);
    } else {
      assert UrlTier(envUrl.value, fetch, cache) == TierResult(cache.today, cache);
    }
  }

  class ImproverService {
    /** `abortController !== null` */
    var hasAbortController: bool
    /** `timeoutId !== null` */
    var hasTimeout: bool
    /** The fixed role definition sent as the system instruction. */
    const systemInstruction: string
    /** The prompt used when no setting supplies one. */
    const defaultImprovementPrompt: string
    /** The improvement prompt put in front of every user prompt. */
    var improvementPrompt: string

    /** A fresh service holds no handles and the default improvement prompt. */
    constructor (systemInstruction: string, defaultImprovementPrompt: string)
      ensures this.systemInstruction == systemInstruction
      ensures this.defaultImprovementPrompt == defaultImprovementPrompt
      ensures improvementPrompt == defaultImprovementPrompt
      ensures Idle()
    {
      this.systemInstruction := systemInstruction;
      this.defaultImprovementPrompt := defaultImprovementPrompt;
      improvementPrompt := defaultImprovementPrompt;
      hasAbortController := false;
      hasTimeout := false;
    }

    /** Neither an abort handle nor a timer is held. */
    predicate Idle()
      reads this
    {
      !hasAbortController && !hasTimeout
    }

    /**
     * The synchronous part of `improvePrompt`. A blank prompt, or a client
     * that is not initialized, gives one `onError`, leaves both handles as
     * they were, and the returned promise settles at once. Otherwise the call
     * takes an abort handle, starts the timer and sends the request, and its
     * promise stays pending (`pending`) until `Settle`.
     */
    method ImprovePrompt(prompt: string, clientReady: bool) returns (effects: seq<Effect>, pending: bool)
      modifies this`hasAbortController, this`hasTimeout
      ensures pending <==> !IsBlank(prompt) && clientReady
      ensures IsBlank(prompt) ==> effects == [Failed(EMPTY_PROMPT_ERROR)]
      ensures !IsBlank(prompt) && !clientReady ==> effects == [Failed(API_KEY_ERROR)]
      ensures !pending ==> hasAbortController == old(hasAbortController) && hasTimeout == old(hasTimeout)
      ensures pending ==> hasAbortController && hasTimeout
                          && effects == Prologue(improvementPrompt, systemInstruction, prompt)
    {
      if IsBlank(prompt) {
        return [Failed(EMPTY_PROMPT_ERROR)], false;
      }
      if !clientReady {
        return [Failed(API_KEY_ERROR)], false;
      }
      hasAbortController := true;
      hasTimeout := true;
      effects := [TimerStarted(DEFAULT_TIMEOUT), Requested(UserContent(improvementPrompt, prompt), systemInstruction)];
      pending := true;
    }

    /** The timer's callback, which runs only while the timer is set: cancel, then report the timeout. */
    method OnTimeout() returns (effects: seq<Effect>)
      requires hasTimeout
      modifies this`hasAbortController, this`hasTimeout
      ensures Idle()
      ensures effects == (if old(hasAbortController) then [Aborted] else []) + [TimerCleared, Failed(TIMEOUT_ERROR)]
    {
      var cancelled := Cancel();
      effects := cancelled + [Failed(TIMEOUT_ERROR)];
    }

    /**
     * The client's call settles, resolved or rejected: clear the timer if
     * it is still set, call `onComplete` or `onError`, and drop the abort
     * handle in `finally`.
     */
    method Settle(settlement: Settlement) returns (effects: seq<Effect>)
      modifies this`hasAbortController, this`hasTimeout
      ensures Idle()
      ensures effects == (if old(hasTimeout) then [TimerCleared] else []) + [Terminal(settlement)]
    {
      var cleared := ClearTimeout();
      effects := cleared + [Terminal(settlement)];
      // finally
      hasAbortController := false;
    }

    /**
     * One `improvePrompt` call from its start to its settlement, the client
     * reporting the run's chunks and the run's interruption, the timer or the
     * caller's `cancel()`, coming before the call settles. A rejected prompt
     * gives what `ImprovePrompt` gives; an accepted one does `RequestTrace`
     * and ends holding neither handle.
     */
    method Request(prompt: string, clientReady: bool, run: ClientRun) returns (effects: seq<Effect>)
      modifies this`hasAbortController, this`hasTimeout
      ensures IsBlank(prompt) ==> effects == [Failed(EMPTY_PROMPT_ERROR)]
      ensures !IsBlank(prompt) && !clientReady ==> effects == [Failed(API_KEY_ERROR)]
      ensures IsBlank(prompt) || !clientReady ==>
                hasAbortController == old(hasAbortController) && hasTimeout == old(hasTimeout)
      ensures !IsBlank(prompt) && clientReady ==>
                Idle() && effects == RequestTrace(improvementPrompt, systemInstruction, prompt, run)
    {
      var pending;
      effects, pending := ImprovePrompt(prompt, clientReady);
      if !pending {
        return;
      }
      effects := effects + Forwarded(run.chunks);
      var cut := [];
      match run.interruption {
        case TimedOut =>
          cut := OnTimeout();
        case CallerCancelled =>
          cut := Cancel();
        case Uninterrupted =>
      }
      assert cut == InterruptTrace(run.interruption);
      var settled := Settle(run.settlement);
      assert settled == SettleTrace(run.interruption != Uninterrupted, run.settlement);
      effects := effects + cut + settled;
    }

    /**
     * Abort the request in flight, if any, and clear the timer, if any. It
     * never calls a callback, and on an idle service it does nothing.
     */
    method Cancel() returns (effects: seq<Effect>)
      modifies this`hasAbortController, this`hasTimeout
      ensures Idle()
      ensures effects == (if old(hasAbortController) then [Aborted] else [])
                         + (if old(hasTimeout) then [TimerCleared] else [])
      ensures forall i :: 0 <= i < |effects| ==> !IsCallback(effects[i])
    {
      effects := [];
      if hasAbortController {
        effects := [Aborted];
        hasAbortController := false;
      }
      var cleared := ClearTimeout();
      effects := effects + cleared;
    }

    /** Clear the timer if one is set. */
    method ClearTimeout() returns (effects: seq<Effect>)
      modifies this`hasTimeout
      ensures !hasTimeout
      ensures effects == if old(hasTimeout) then [TimerCleared] else []
    {
      effects := [];
      if hasTimeout {
        effects := [TimerCleared];
        hasTimeout := false;
      }
    }

    /** The URL fallback chain, reading and writing the cache. */
    method FetchFromUrl(url: string, fetch: string -> FetchOutcome, cache: PromptCache) returns (prompt: Option<string>)
      modifies cache
      ensures prompt == UrlFallback(old(cache.View()), fetch(url))
      ensures cache.View() == CacheAfter(old(cache.View()), fetch(url))
    {
      var cached := cache.today;
      if Truthy(cached) {
        return cached;
      }
      var response := fetch(url);
      if FetchSucceeded(response) {
        cache.SaveCache(response.body);
        return Some(response.body);
      }
      // the fetch threw or the response was not ok
      var latestCache := cache.latest;
      if Truthy(latestCache) {
        return latestCache;
      }
      return None;
    }

    /** Set the improvement prompt by the priority chain. */
    method LoadImprovementPromptWithPriority(settings: ImprovePromptSettings, envUrl: Option<string>,
                                             fetch: string -> FetchOutcome, cache: PromptCache)
      modifies this`improvementPrompt, cache
      ensures Resolution(improvementPrompt, cache.View())
              == ResolveImprovementPrompt(settings, envUrl, fetch, old(cache.View()), defaultImprovementPrompt)
    {
      if settings.mode == TextMode && !IsBlank(settings.textContent) {
        improvementPrompt := settings.textContent;
        return;
      }
      if settings.mode == UrlMode && !IsBlank(settings.urlContent) {
        var prompt := FetchFromUrl(settings.urlContent, fetch, cache);
        if Truthy(prompt) {
          improvementPrompt := prompt.value;
          return;
        }
      }
      if Truthy(envUrl) {
        var prompt := FetchFromUrl(envUrl.value, fetch, cache);
        if Truthy(prompt) {
          improvementPrompt := prompt.value;
          return;
        }
      }
      improvementPrompt := defaultImprovementPrompt;
    }
  }
}
