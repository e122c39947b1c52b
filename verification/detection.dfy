/** The safety scanner (DetectionModule.tsx): an input tab, a text field, a
    loading lifecycle around one gateway call, the rotating loading caption
    and the colouring of a verdict by its risk level. */
module Detection {
  import opened Types
  import opened Text
  import Gemini

  /** Captions cycled through while a scan runs. */
  const LoadingStages: seq<string> := [
    "Initializing secure connection...",
    "Consulting global threat databases...",
    "Analyzing domain reputation...",
    "Scanning for psychological triggers...",
    "Finalizing threat assessment..."
  ]

  /** `stage` is the index the loading timer keeps; the caption shown while
      loading is `LoadingStages[stage]`. `result` is what the last scan
      resolved to, `None` for `null`. */
  datatype ScanState = ScanState(
    tab: Gemini.InputKind,
    input: string,
    loading: bool,
    stage: nat,
    result: Option<Gemini.Analysis>)

  function Initial(): (s: ScanState)
    ensures s.tab == Gemini.Url && s.input == "" && !s.loading && s.result.None?
  {
    ScanState(Gemini.Url, "", false, 0, None)
  }

  /** The analyze button's enabling rule, `!(loading || !input.trim())`. */
  predicate CanAnalyze(s: ScanState) {
    !s.loading && !IsBlank(s.input)
  }

  /** The button is enabled exactly when no scan is running and the input has
      at least one non-whitespace character. */
  lemma CanAnalyzeIff(s: ScanState)
    ensures CanAnalyze(s) <==> !s.loading && exists i :: 0 <= i < |s.input| && !IsWhitespace(s.input[i])
  {
    BlankIffAllWhitespace(s.input);
  }

  /** The gateway call a scan makes. */
  datatype Request = Request(kind: Gemini.InputKind, content: string)

  datatype ScanStart = ScanStart(state: ScanState, request: Option<Request>)

  /** The synchronous part of `handleAnalyze`. A blank input returns at once
      and calls nothing; otherwise loading starts (with the caption reset to
      the first stage) and the previous verdict is cleared before the call.
      The guard does not test `loading`, so a second start would reset the
      stage, which the timer effect keyed on `loading` does not do; that case
      cannot arise, because the button is disabled while loading. */
  function BeginAnalyze(s: ScanState): (r: ScanStart)
    ensures IsBlank(s.input) ==> r.state == s && r.request.None?
    ensures !IsBlank(s.input) ==>
              && r.request == Some(Request(s.tab, s.input))
              && r.state == s.(loading := true, stage := 0, result := None)
  {
    if IsBlank(s.input) then ScanStart(s, None)
    else ScanStart(s.(loading := true, stage := 0, result := None), Some(Request(s.tab, s.input)))
  }

  /** The rest of `handleAnalyze`, once the gateway promise settled: whatever
      it resolved to is stored, a rejection stores nothing, and loading ends
      either way. */
  function CompleteAnalyze(s: ScanState, outcome: Option<Gemini.Analysis>): (r: ScanState)
    ensures !r.loading
    ensures r.tab == s.tab && r.input == s.input
    ensures outcome.Some? ==> r.result == outcome
    ensures outcome.None? ==> r.result == s.result
  {
    match outcome
    case Some(data) => s.(result := Some(data), loading := false)
    case None => s.(loading := false)
  }

  /** A scan from start to end: loading is over afterwards in every outcome,
      the verdict is whatever the gateway resolved to, and a rejection leaves
      no verdict at all, not even the one from before. */
  lemma ScanLifecycle(s: ScanState, outcome: Option<Gemini.Analysis>)
    requires !AllWhitespace(s.input)
    ensures var r := CompleteAnalyze(BeginAnalyze(s).state, outcome);
              !r.loading && r.result == outcome && r.input == s.input && r.tab == s.tab
  {
    BlankIffAllWhitespace(s.input);
  }

  /** Clicking an input tab: the tab changes and both the verdict and the text
      are cleared. A running scan is not cancelled. */
  function SwitchTab(s: ScanState, kind: Gemini.InputKind): (r: ScanState)
    ensures r.tab == kind && r.input == "" && r.result.None?
    ensures r.loading == s.loading && r.stage == s.stage
  {
    s.(tab := kind, result := None, input := "")
  }

  /** A scan still in flight when the tab is switched delivers its verdict into
      the new, emptied tab. */
  lemma SwitchDuringScanShowsLateVerdict(s: ScanState, kind: Gemini.InputKind, verdict: AnalysisResult)
    requires !AllWhitespace(s.input)
    ensures var r := CompleteAnalyze(SwitchTab(BeginAnalyze(s).state, kind), Some(Gemini.Verdict(verdict)));
              r.tab == kind && r.input == "" && r.result == Some(Gemini.Verdict(verdict))
  {
    BlankIffAllWhitespace(s.input);
  }

  /** The loading timer's update `(stage + 1) % loadingStages.length`. */
  function NextStage(stage: nat): (r: nat)
    ensures r < |LoadingStages|
    ensures stage < |LoadingStages| - 1 ==> r == stage + 1
    ensures stage == |LoadingStages| - 1 ==> r == 0
  {
    (stage + 1) % |LoadingStages|
  }

  /** One timer tick: the stage advances only while loading, and nothing
      else changes. */
  function Tick(s: ScanState): (r: ScanState)
    ensures r == s.(stage := r.stage)
    ensures s.loading ==> r.stage == NextStage(s.stage)
    ensures !s.loading ==> r == s
  {
    if s.loading then s.(stage := NextStage(s.stage)) else s
  }

  function Ticks(s: ScanState, n: nat): ScanState {
    if n == 0 then s else Tick(Ticks(s, n - 1))
  }

  /** Ticking a running scan from the first caption: after `n` ticks the
      caption index is `n mod 5`. */
  lemma {:induction false} TicksFromFirstStage(s: ScanState, n: nat)
    requires s.loading && s.stage == 0
    ensures Ticks(s, n).loading && Ticks(s, n).stage == n % |LoadingStages|
  {
    if n > 0 {
      TicksFromFirstStage(s, n - 1);
      var p := Ticks(s, n - 1);
      assert p.stage == (n - 1) % 5;
      assert NextStage(p.stage) == n % 5;
    }
  }

  /** After `n` ticks of a scan that has just started, the caption index is
      `n mod 5`: the first caption first, then the five in turn, forever. */
  lemma StageCycles(s: ScanState, n: nat)
    requires !AllWhitespace(s.input)
    ensures var r := Ticks(BeginAnalyze(s).state, n);
              r.loading && r.stage == n % |LoadingStages|
  {
    BlankIffAllWhitespace(s.input);
    TicksFromFirstStage(BeginAnalyze(s).state, n);
  }

  /** What the result area shows for `{result && (…)}`: nothing for `null`,
      `false` or `""`; the text "0" for the number zero, which React renders;
      the verdict panel for a full verdict; and for any other value a render
      that throws at the first list it maps over (`suspiciousPatterns.map`). */
  datatype Panel = Hidden | StrayZero | Report(verdict: AnalysisResult) | RenderThrows

  function VerdictPanel(s: ScanState): (p: Panel)
    ensures p.Hidden? <==> s.result.None? || s.result == Some(Gemini.Falsy)
    ensures p.StrayZero? <==> s.result == Some(Gemini.Zero)
    ensures p.Report? <==> s.result.Some? && s.result.value.Verdict?
    ensures p.Report? ==> p.verdict == s.result.value.result
    ensures p.RenderThrows? <==> s.result == Some(Gemini.Shapeless)
  {
    match s.result
    case None => Hidden
    case Some(Falsy) => Hidden
    case Some(Zero) => StrayZero
    case Some(Verdict(v)) => Report(v)
    case Some(Shapeless) => RenderThrows
  }

  /** A failed request still fills the panel, with the fallback verdict. */
  lemma FailedScanShowsFallback(s: ScanState, parse: string -> Gemini.Parsed)
    requires !AllWhitespace(s.input)
    ensures VerdictPanel(CompleteAnalyze(BeginAnalyze(s).state,
              Gemini.AnalyzeContent(Gemini.RequestFailed, parse))) == Report(Gemini.FallbackResult)
  {
    BlankIffAllWhitespace(s.input);
  }

  /** A reply whose text is "0" parses to the number zero, which the gateway
      returns and the result area shows as the bare text "0". */
  lemma ZeroReplyShowsStrayZero(s: ScanState, parse: string -> Gemini.Parsed)
    requires !AllWhitespace(s.input)
    requires parse("0") == Gemini.Parsed(Gemini.Zero)
    ensures VerdictPanel(CompleteAnalyze(BeginAnalyze(s).state,
              Gemini.AnalyzeContent(Gemini.Answered(Some("0")), parse))) == StrayZero
  {
    BlankIffAllWhitespace(s.input);
  }

  /** An empty reply from the model reaches the panel as `{}`, whose render
      throws; a rejected call leaves the area empty. */
  lemma EmptyReplyBreaksPanel(s: ScanState, parse: string -> Gemini.Parsed)
    requires !AllWhitespace(s.input)
    requires parse("{}") == Gemini.Parsed(Gemini.Shapeless)
    ensures VerdictPanel(CompleteAnalyze(BeginAnalyze(s).state,
              Gemini.AnalyzeContent(Gemini.Answered(None), parse))) == RenderThrows
    ensures VerdictPanel(CompleteAnalyze(BeginAnalyze(s).state,
              Gemini.AnalyzeContent(Gemini.ClientThrew, parse))) == Hidden
  {
    BlankIffAllWhitespace(s.input);
    Gemini.EmptyReplyParsedAsEmptyObject(parse);
  }

  const LowStyle := "text-emerald-600 dark:text-emerald-400 border-emerald-400/20 bg-emerald-50 dark:bg-emerald-400/10"
  const MediumStyle := "text-yellow-600 dark:text-yellow-400 border-yellow-400/20 bg-yellow-50 dark:bg-yellow-400/10"
  const HighStyle := "text-orange-600 dark:text-orange-400 border-orange-400/20 bg-orange-50 dark:bg-orange-400/10"
  const CriticalStyle := "text-red-600 dark:text-red-400 border-red-400/20 bg-red-50 dark:bg-red-400/10"
  const DefaultStyle := "text-slate-600 dark:text-slate-400 border-slate-400/20 bg-slate-50 dark:bg-slate-400/10"

  /** `getRiskColor`: the verdict's level string picks one of four styles; any
      string outside the enumeration gets the neutral style. */
  function RiskColor(level: string): (style: string)
    ensures ParseRiskLevel(level) == Some(Low) ==> style == LowStyle
    ensures ParseRiskLevel(level) == Some(Medium) ==> style == MediumStyle
    ensures ParseRiskLevel(level) == Some(High) ==> style == HighStyle
    ensures ParseRiskLevel(level) == Some(Critical) ==> style == CriticalStyle
    ensures ParseRiskLevel(level).None? ==> style == DefaultStyle
  {
    if level == "Low" then LowStyle
    else if level == "Medium" then MediumStyle
    else if level == "High" then HighStyle
    else if level == "Critical" then CriticalStyle
    else DefaultStyle
  }

  /** Different levels never share a style, and the neutral style means the
      string was not a level at all. */
  lemma RiskColorDistinct(a: string, b: string)
    ensures (ParseRiskLevel(a).Some? && ParseRiskLevel(b).Some? && ParseRiskLevel(a) != ParseRiskLevel(b))
              ==> RiskColor(a) != RiskColor(b)
    ensures RiskColor(a) == DefaultStyle <==> ParseRiskLevel(a).None?
  {
  }
}
