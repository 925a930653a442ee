/**
 * The preview of the improved prompt: which parts are shown for given
 * props, when scroll synchronisation is on, and where a click on an
 * explanation card scrolls the editor.
 */
module ImprovedPromptPreview {
  import opened Wrappers
  import opened JsText
  import opened Measure
  import opened Improver
  import ScrollSync

  /** Line height used when the computed `line-height` parses to zero or NaN. */
  const FALLBACK_LINE_HEIGHT: real := 20.0

  /** What is read from the editor when scrolling to a line. */
  datatype EditorBox = EditorBox(clientHeight: real, parsedLineHeight: Option<real>)

  /** The top pixel row of a 1-based line, padding left aside. */
  function LineOffset(line: int, lineHeight: real): real
  {
    (line - 1) as real * lineHeight
  }

  /**
   * Where a card click scrolls the editor: the range's first line at the
   * middle of the viewport, or the top when that would need a negative
   * offset; `None` (no scroll) without an editor. The range's end is not
   * used.
   */
  function ScrollToLineTarget(editor: Option<EditorBox>, startLine: int, endLine: int): (r: Option<real>)
    ensures r.None? <==> editor.None?
    ensures r.Some? ==> r.value >= 0.0
    ensures r.Some? && r.value > 0.0 ==>
              r.value + editor.value.clientHeight / 2.0
              == LineOffset(startLine, TruthyNumberOr(editor.value.parsedLineHeight, FALLBACK_LINE_HEIGHT))
    ensures r.Some? && r.value == 0.0 ==>
              LineOffset(startLine, TruthyNumberOr(editor.value.parsedLineHeight, FALLBACK_LINE_HEIGHT))
              <= editor.value.clientHeight / 2.0
  {
    if editor.None? then None
    else
      var lineHeight := TruthyNumberOr(editor.value.parsedLineHeight, FALLBACK_LINE_HEIGHT);
      Some(ClampNonNegative(LineOffset(startLine, lineHeight) - editor.value.clientHeight / 2.0))
  }

  /** The target depends on the first line of the range only. */
  lemma ScrollTargetIgnoresEndLine(editor: Option<EditorBox>, startLine: int, end1: int, end2: int)
    ensures ScrollToLineTarget(editor, startLine, end1) == ScrollToLineTarget(editor, startLine, end2)
  {
  }

  /** Scroll synchronisation is requested exactly when there is a change log. */
  predicate ScrollSyncEnabled(changeLog: seq<ImproveLog>)
  {
    |changeLog| > 0
  }

  /** The props that decide what is shown; `None` for an optional prop takes its default. */
  datatype PreviewProps = PreviewProps(
    improvedContent: string,
    isImproving: bool,
    improvementError: Option<string>,
    changeLog: seq<ImproveLog>,
    disabled: Option<bool>,
    isApiKeyConfigured: Option<bool>)

  /** The improve button, when shown. */
  datatype ImproveButton = ImproveButton(disabled: bool)

  /** What the preview area shows. */
  datatype PreviewView =
    | ErrorView(message: string)
    | EditorView(
        showsImprovingPlaceholder: bool,
        overlay: bool,
        connectingLines: bool,
        explanationPanel: bool,
        improveButton: Option<ImproveButton>,
        cancelButton: bool)

  /**
   * A truthy error replaces the whole area with its text. Otherwise the
   * editor is shown; the overlay, the connectors and the explanation panel
   * only with a non-empty change log; the improve button only while the
   * improved text is blank and nothing is in progress, disabled when the
   * caller disables it or no API key is configured; the cancel button only
   * while improving.
   */
  function Render(p: PreviewProps): (v: PreviewView)
    ensures v.ErrorView? <==> Truthy(p.improvementError)
    ensures v.ErrorView? ==> v.message == p.improvementError.value
    ensures v.EditorView? ==>
              && (v.overlay <==> |p.changeLog| > 0)
              && (v.connectingLines <==> |p.changeLog| > 0)
              && (v.explanationPanel <==> |p.changeLog| > 0)
              && (v.improveButton.Some? <==> IsBlank(p.improvedContent) && !p.isImproving)
              && (v.improveButton.Some? ==>
                    (v.improveButton.value.disabled <==> p.disabled == Some(true) || p.isApiKeyConfigured == Some(false)))
              && (v.cancelButton <==> p.isImproving)
              && (v.showsImprovingPlaceholder <==> p.isImproving)
  {
    if Truthy(p.improvementError) then ErrorView(p.improvementError.value)
    else
      var hasLog := |p.changeLog| > 0;
      var button := if IsBlank(p.improvedContent) && !p.isImproving
                    then Some(ImproveButton(p.disabled.GetOr(false) || !p.isApiKeyConfigured.GetOr(true)))
                    else None;
      EditorView(p.isImproving, hasLog, hasLog, hasLog, button, p.isImproving)
  }

  /** The improve and the cancel button are never shown together. */
  lemma ButtonsExclusive(p: PreviewProps)
    ensures var v := Render(p);
            v.EditorView? ==> !(v.improveButton.Some? && v.cancelButton)
  {
  }

  /**
   * The scroll-sync hook installs its listener exactly when the editor is
   * shown and there is a change log, and then the explanation panel it
   * scrolls is shown too.
   */
  lemma ScrollSyncArmedIff(p: PreviewProps)
    ensures var v := Render(p);
            ScrollSync.ListenerInstalled(ScrollSyncEnabled(p.changeLog), v.EditorView?, p.changeLog)
            <==> !Truthy(p.improvementError) && |p.changeLog| > 0
    ensures var v := Render(p);
            ScrollSync.ListenerInstalled(ScrollSyncEnabled(p.changeLog), v.EditorView?, p.changeLog)
            ==> v.explanationPanel && v.overlay
  {
  }
}
