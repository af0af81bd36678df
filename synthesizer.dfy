/** The report synthesizer: runs the enabled analyses over a report context
    through one provider and adds their results under `synthesis`, turning
    every failure into an error entry instead of raising. */
module Synthesizer {
  import opened Wrappers
  import opened JsonValues
  import opened Report
  import opened Provider
  import ExecutiveSummary
  import RiskAnalysis

  const EXECUTIVE_SUMMARY := "executive_summary"
  const RISK_ANALYSIS := "risk_analysis"
  const ACTION_ITEMS := "action_items"

  const EXEC_SYSTEM := "You are an AI assistant helping a technical program manager understand program status. Be concise, specific, and decision-oriented."
  const RISK_SYSTEM := "You are an AI assistant analyzing program risks. Return valid JSON only. Be concise and specific."

  const DEFAULT_MAX_TOKENS := 500
  const DEFAULT_TEMPERATURE: real := 0.0

  /** The features used when the caller passes none. */
  const DEFAULT_FEATURES := map[EXECUTIVE_SUMMARY := true, RISK_ANALYSIS := true, ACTION_ITEMS := false]

  /** The keys each analysis may write. */
  const EXEC_KEYS := {"executive_summary", "executive_summary_metadata", "executive_summary_error"}
  const RISK_KEYS := {"risk_analysis", "risk_analysis_error"}

  /** `features.get(name, False)`, after the defaults were filled in. */
  predicate Enabled(features: Option<map<string, bool>>, name: string) {
    var fs := if features.Some? then features.value else DEFAULT_FEATURES;
    name in fs && fs[name]
  }

  /** What a synthesis run depends on besides its inputs: the provider's
      client and settings, the synthesizer's generation parameters and the
      `parse_response` functions of the two prompt modules. */
  datatype Setup = Setup(script: nat -> Reply, maxRetries: int, model: string, maxTokens: int, temperature: real,
                         summarize: string -> ExecutiveSummary.SummaryResult,
                         parseRisks: (string, string -> Decoded) -> Result<Json>)

  /** The tally of two runs one after the other. */
  function Plus(a: Tally, b: Tally): (r: Tally)
    ensures r.calls == a.calls + b.calls && r.sleeps == a.sleeps + b.sleeps
  {
    Tally(a.calls + b.calls, a.inputTokens + b.inputTokens, a.outputTokens + b.outputTokens, a.sleeps + b.sleeps)
  }

  /** Two steps' counters add up to the counters of their combined tally. */
  lemma Accumulate(in0: nat, in1: nat, in2: nat, out0: nat, out1: nat, out2: nat,
                   sleeps0: seq<real>, sleeps1: seq<real>, sleeps2: seq<real>, t: Tally, u: Tally)
    requires in1 == in0 + t.inputTokens && in2 == in1 + u.inputTokens
    requires out1 == out0 + t.outputTokens && out2 == out1 + u.outputTokens
    requires sleeps1 == sleeps0 + t.sleeps && sleeps2 == sleeps1 + u.sleeps
    ensures var p := Plus(t, u);
      in2 == in0 + p.inputTokens && out2 == out0 + p.outputTokens && sleeps2 == sleeps0 + p.sleeps
  {
    assert sleeps0 + t.sleeps + u.sleeps == sleeps0 + (t.sleeps + u.sleeps);
  }

  /** The two prompts a context yields; the risk prompt is `None` when nothing is at risk. */
  datatype Prompts = Prompts(summary: string, risks: Option<string>)

  /** `_generate_executive_summary` when the client's next call is number `first`. */
  function SummaryOutcome(s: Setup, first: nat, prompts: Prompts): (Result<ExecutiveSummary.SummaryResult>, Tally) {
    var g := Generation(s.script, first, s.maxRetries, prompts.summary, s.maxTokens, s.temperature);
    (if g.0.Ok? then Ok(s.summarize(g.0.value)) else Err(g.0.error), g.1)
  }

  /** `_analyze_risks` when the client's next call is number `first`: `None`
      without a call when nothing is at risk. */
  function RisksOutcome(s: Setup, first: nat, prompts: Prompts, decode: string -> Decoded): (Result<Option<Json>>, Tally) {
    match prompts.risks
    case None => (Ok(None), NoTally)
    case Some(prompt) =>
      var g := Generation(s.script, first, s.maxRetries, prompt, s.maxTokens, s.temperature);
      if g.0.Err? then (Err(g.0.error), g.1)
      else
        match s.parseRisks(g.0.value, decode)
        case Ok(v) => (Ok(Some(v)), g.1)
        case Err(f) => (Err(f), g.1)
  }

  /** The synthesis entries for the executive summary's outcome. */
  function WithSummary(m: map<string, Json>, r: Result<ExecutiveSummary.SummaryResult>): map<string, Json> {
    match r
    case Ok(p) =>
      m[EXECUTIVE_SUMMARY := JStr(p.summary)]
       ["executive_summary_metadata" := JObj(map["length" := JNum(p.length), "sentence_count" := JNum(p.sentenceCount)])]
    case Err(f) => m[EXECUTIVE_SUMMARY := JNull]["executive_summary_error" := JStr(Message(f))]
  }

  /** The synthesis entries for the risk analysis's outcome: only a truthy result is kept. */
  function WithRisks(m: map<string, Json>, r: Result<Option<Json>>): map<string, Json> {
    match r
    case Ok(None) => m
    case Ok(Some(v)) => if Truthy(v) then m[RISK_ANALYSIS := v] else m
    case Err(f) => m[RISK_ANALYSIS := JNull]["risk_analysis_error" := JStr(Message(f))]
  }

  datatype Outcome = Outcome(synthesis: map<string, Json>, tally: Tally)

  /** The two analyses as functions of the number of the client's next call. */
  datatype Analyses = Analyses(
    summary: nat -> (Result<ExecutiveSummary.SummaryResult>, Tally),
    risks: nat -> (Result<Option<Json>>, Tally))

  function AnalysesOf(s: Setup, prompts: Prompts, decode: string -> Decoded): Analyses {
    Analyses((n: nat) => SummaryOutcome(s, n, prompts), (n: nat) => RisksOutcome(s, n, prompts, decode))
  }

  /** The analyses that run: the executive summary first (client calls from
      `first` on), then the risk analysis on the calls that follow. */
  function Run(model: string, a: Analyses, first: nat, runSummary: bool, runRisks: bool, now: string): Outcome {
    var base := map["generated_at" := JStr(now), "model" := JStr(model)];
    var e := if runSummary then a.summary(first) else (Err(ValueError("")), NoTally);
    var m := if runSummary then WithSummary(base, e.0) else base;
    var k := if runRisks then a.risks(first + e.1.calls) else (Ok(None), NoTally);
    Outcome(WithRisks(m, k.0), Plus(e.1, k.1))
  }

  /** `synthesize`: the features switched on decide which analyses run. */
  function Synthesis(model: string, a: Analyses, first: nat, features: Option<map<string, bool>>, now: string): Outcome {
    Run(model, a, first, Enabled(features, EXECUTIVE_SUMMARY), Enabled(features, RISK_ANALYSIS), now)
  }

  /** A run, one step at a time: the summary's outcome, then the risk
      analysis's outcome on the calls that follow. */
  lemma RunSteps(model: string, a: Analyses, first: nat, runSummary: bool, runRisks: bool, now: string,
                 e: (Result<ExecutiveSummary.SummaryResult>, Tally), k: (Result<Option<Json>>, Tally))
    requires e == if runSummary then a.summary(first) else (Err(ValueError("")), NoTally)
    requires k == if runRisks then a.risks(first + e.1.calls) else (Ok(None), NoTally)
    ensures var base := map["generated_at" := JStr(now), "model" := JStr(model)];
      Run(model, a, first, runSummary, runRisks, now)
        == Outcome(WithRisks(if runSummary then WithSummary(base, e.0) else base, k.0), Plus(e.1, k.1))
  {
  }

  /** The summary step and then the risk step, as `synthesize` takes them,
      make up the synthesis of the features. */
  lemma SynthesisSteps(s: Setup, prompts: Prompts, decode: string -> Decoded, first: nat,
                       features: Option<map<string, bool>>, now: string, e: (Result<ExecutiveSummary.SummaryResult>, Tally),
                       k: (Result<Option<Json>>, Tally), synthesis: map<string, Json>)
    requires e == if Enabled(features, EXECUTIVE_SUMMARY) then SummaryOutcome(s, first, prompts) else (Err(ValueError("")), NoTally)
    requires k == if Enabled(features, RISK_ANALYSIS) then RisksOutcome(s, first + e.1.calls, prompts, decode) else (Ok(None), NoTally)
    requires var base := map["generated_at" := JStr(now), "model" := JStr(s.model)];
      synthesis == WithRisks(if Enabled(features, EXECUTIVE_SUMMARY) then WithSummary(base, e.0) else base, k.0)
    ensures var o := Synthesis(s.model, AnalysesOf(s, prompts, decode), first, features, now);
      o.synthesis == synthesis && o.tally == Plus(e.1, k.1)
  {
    AnalysesOfApply(s, prompts, decode, first);
    AnalysesOfApply(s, prompts, decode, first + e.1.calls);
    RunSteps(s.model, AnalysesOf(s, prompts, decode), first, Enabled(features, EXECUTIVE_SUMMARY), Enabled(features, RISK_ANALYSIS), now, e, k);
  }

  /** The analyses of a setup are its two outcome functions. */
  lemma AnalysesOfApply(s: Setup, prompts: Prompts, decode: string -> Decoded, n: nat)
    ensures AnalysesOf(s, prompts, decode).summary(n) == SummaryOutcome(s, n, prompts)
    ensures AnalysesOf(s, prompts, decode).risks(n) == RisksOutcome(s, n, prompts, decode)
  {
  }

  // ------------------------------------------------------------ properties

  /** The timestamp and the model are always recorded, and only the enabled
      analyses add keys: an executive summary always leaves either its metadata
      or its error, and a risk analysis only its own two keys. */
  lemma SynthesisKeys(model: string, a: Analyses, first: nat, features: Option<map<string, bool>>, now: string)
    ensures var m := Synthesis(model, a, first, features, now).synthesis;
      "generated_at" in m && m["generated_at"] == JStr(now) &&
      "model" in m && m["model"] == JStr(model) &&
      m.Keys <= {"generated_at", "model"} + EXEC_KEYS + RISK_KEYS &&
      (m.Keys * EXEC_KEYS != {} <==> Enabled(features, EXECUTIVE_SUMMARY)) &&
      (Enabled(features, EXECUTIVE_SUMMARY) ==>
         EXECUTIVE_SUMMARY in m &&
         ("executive_summary_metadata" in m <==> "executive_summary_error" !in m) &&
         (m[EXECUTIVE_SUMMARY] == JNull <==> "executive_summary_error" in m)) &&
      (!Enabled(features, RISK_ANALYSIS) ==> m.Keys * RISK_KEYS == {}) &&
      ("risk_analysis_error" in m ==> RISK_ANALYSIS in m && m[RISK_ANALYSIS] == JNull)
  {
  }

  /** The executive summary's entries do not depend on whether the risk
      analysis runs, and a failed summary does not stop the risk analysis. */
  lemma {:induction false} SummaryUnaffectedByRisks(model: string, a: Analyses, first: nat, fs: map<string, bool>, now: string, key: string)
    requires key in EXEC_KEYS
    ensures var withRisks := Synthesis(model, a, first, Some(fs[RISK_ANALYSIS := true]), now).synthesis;
      var withoutRisks := Synthesis(model, a, first, Some(fs[RISK_ANALYSIS := false]), now).synthesis;
      (key in withRisks <==> key in withoutRisks) &&
      (key in withRisks ==> withRisks[key] == withoutRisks[key])
  {
    var runSummary := Enabled(Some(fs), EXECUTIVE_SUMMARY);
    assert Enabled(Some(fs[RISK_ANALYSIS := true]), EXECUTIVE_SUMMARY) == runSummary;
    assert Enabled(Some(fs[RISK_ANALYSIS := false]), EXECUTIVE_SUMMARY) == runSummary;
    assert Enabled(Some(fs[RISK_ANALYSIS := true]), RISK_ANALYSIS);
    assert !Enabled(Some(fs[RISK_ANALYSIS := false]), RISK_ANALYSIS);
    RunSummaryUnaffected(model, a, first, runSummary, now, key);
  }

  lemma RunSummaryUnaffected(model: string, a: Analyses, first: nat, runSummary: bool, now: string, key: string)
    requires key !in RISK_KEYS
    ensures var withRisks := Run(model, a, first, runSummary, true, now).synthesis;
      var withoutRisks := Run(model, a, first, runSummary, false, now).synthesis;
      (key in withRisks <==> key in withoutRisks) &&
      (key in withRisks ==> withRisks[key] == withoutRisks[key])
  {
    var base := map["generated_at" := JStr(now), "model" := JStr(model)];
    var e := if runSummary then a.summary(first) else (Err(ValueError("")), NoTally);
    var m := if runSummary then WithSummary(base, e.0) else base;
    var k := a.risks(first + e.1.calls);
    RunSteps(model, a, first, runSummary, true, now, e, k);
    RunSteps(model, a, first, runSummary, false, now, e, (Ok(None), NoTally));
    WithRisksKeeps(m, k.0, key);
  }

  /** The `action_items` flag changes nothing: the synthesizer has no such analysis. */
  lemma ActionItemsIgnored(model: string, a: Analyses, first: nat, fs: map<string, bool>, flag: bool, now: string)
    ensures Synthesis(model, a, first, Some(fs[ACTION_ITEMS := flag]), now) == Synthesis(model, a, first, Some(fs), now)
  {
    assert Enabled(Some(fs[ACTION_ITEMS := flag]), EXECUTIVE_SUMMARY) == Enabled(Some(fs), EXECUTIVE_SUMMARY);
    assert Enabled(Some(fs[ACTION_ITEMS := flag]), RISK_ANALYSIS) == Enabled(Some(fs), RISK_ANALYSIS);
  }

  /** With no features given, both analyses run. */
  lemma DefaultFeatures(model: string, a: Analyses, first: nat, now: string)
    ensures Synthesis(model, a, first, None, now)
         == Synthesis(model, a, first, Some(map[EXECUTIVE_SUMMARY := true, RISK_ANALYSIS := true]), now)
  {
    assert Enabled(None, EXECUTIVE_SUMMARY) && Enabled(None, RISK_ANALYSIS);
  }

  /** Every `generate` call makes at most `max_retries` client calls. */
  lemma GenerationBound(s: Setup, first: nat, prompt: string)
    ensures Generation(s.script, first, s.maxRetries, prompt, s.maxTokens, s.temperature).1.calls
         <= if s.maxRetries > 0 then s.maxRetries else 0
  {
    if CheckRequest(prompt, s.maxTokens, s.temperature).None? {
      RetryBounds(s.script, first, s.maxRetries, 0, "None", NoTally);
    }
  }

  /** The risk analysis makes no call when nothing is at risk, and otherwise one
      `generate` call. */
  lemma RisksCalls(s: Setup, first: nat, prompts: Prompts, decode: string -> Decoded)
    ensures var k := RisksOutcome(s, first, prompts, decode);
      k.1.calls <= (if s.maxRetries > 0 then s.maxRetries else 0) &&
      (prompts.risks.None? ==> k == (Ok(None), NoTally))
  {
    if prompts.risks.Some? {
      GenerationBound(s, first, prompts.risks.value);
    }
  }

  /** Neither analysis makes more than `bound` client calls, whichever call it starts at. */
  ghost predicate Bounded(a: Analyses, bound: int) {
    forall n: nat :: a.summary(n).1.calls <= bound && a.risks(n).1.calls <= bound
  }

  lemma AnalysesBounded(s: Setup, prompts: Prompts, decode: string -> Decoded)
    ensures Bounded(AnalysesOf(s, prompts, decode), if s.maxRetries > 0 then s.maxRetries else 0)
  {
    var a := AnalysesOf(s, prompts, decode);
    forall n: nat
      ensures a.summary(n).1.calls <= (if s.maxRetries > 0 then s.maxRetries else 0)
      ensures a.risks(n).1.calls <= (if s.maxRetries > 0 then s.maxRetries else 0)
    {
      GenerationBound(s, n, prompts.summary);
      RisksCalls(s, n, prompts, decode);
    }
  }

  /** A synthesis runs each analysis at most once, so it makes at most twice
      the calls one analysis makes: at most twice `max_retries`. */
  lemma SynthesisCalls(model: string, a: Analyses, first: nat, features: Option<map<string, bool>>, now: string, bound: int)
    requires bound >= 0 && Bounded(a, bound)
    ensures Synthesis(model, a, first, features, now).tally.calls <= 2 * bound
  {
    assert a.summary(first).1.calls <= bound;
  }

  /** With nothing at risk the risk analysis makes no call and writes nothing:
      the synthesis is what the executive summary alone produces. */
  lemma {:induction false} NothingAtRisk(s: Setup, prompts: Prompts, decode: string -> Decoded, first: nat,
                                         features: Option<map<string, bool>>, now: string)
    requires prompts.risks.None?
    ensures var a := AnalysesOf(s, prompts, decode);
      var o := Synthesis(s.model, a, first, features, now);
      RISK_ANALYSIS !in o.synthesis && "risk_analysis_error" !in o.synthesis &&
      o == Synthesis(s.model, a, first, Some(map[EXECUTIVE_SUMMARY := Enabled(features, EXECUTIVE_SUMMARY)]), now)
  {
    var a := AnalysesOf(s, prompts, decode);
    var e := if Enabled(features, EXECUTIVE_SUMMARY) then a.summary(first) else (Err(ValueError("")), NoTally);
    assert a.risks(first + e.1.calls) == (Ok(None), NoTally);
    var alone := Some(map[EXECUTIVE_SUMMARY := Enabled(features, EXECUTIVE_SUMMARY)]);
    assert Enabled(alone, EXECUTIVE_SUMMARY) == Enabled(features, EXECUTIVE_SUMMARY) && !Enabled(alone, RISK_ANALYSIS);
  }

  /** Whatever the risk analysis does, an executive summary that failed leaves
      `None` and the error's message, and one that succeeded leaves its text
      and its metadata. */
  lemma {:induction false} SummaryEntries(model: string, a: Analyses, first: nat, features: Option<map<string, bool>>, now: string)
    requires Enabled(features, EXECUTIVE_SUMMARY)
    ensures var m := Synthesis(model, a, first, features, now).synthesis;
      var e := a.summary(first).0;
      EXECUTIVE_SUMMARY in m &&
      (e.Err? ==> m[EXECUTIVE_SUMMARY] == JNull && "executive_summary_error" in m &&
                  m["executive_summary_error"] == JStr(Message(e.error))) &&
      (e.Ok? ==> m[EXECUTIVE_SUMMARY] == JStr(e.value.summary) && "executive_summary_metadata" in m &&
                 m["executive_summary_metadata"] == JObj(map["length" := JNum(e.value.length), "sentence_count" := JNum(e.value.sentenceCount)]))
  {
    var e := a.summary(first);
    var m := WithSummary(map["generated_at" := JStr(now), "model" := JStr(model)], e.0);
    var k := if Enabled(features, RISK_ANALYSIS) then a.risks(first + e.1.calls) else (Ok(None), NoTally);
    assert Synthesis(model, a, first, features, now).synthesis == WithRisks(m, k.0);
    WithRisksKeeps(m, k.0, EXECUTIVE_SUMMARY);
    WithRisksKeeps(m, k.0, "executive_summary_error");
    WithRisksKeeps(m, k.0, "executive_summary_metadata");
  }

  /** The executive summary analysis fails exactly when `generate` raises, with
      its error; otherwise the stored summary is the stripped reply without its
      preamble, and the metadata are its length and its count of `.`, `!` and `?`. */
  lemma SummaryOutcomeSpec(s: Setup, first: nat, prompts: Prompts)
    requires s.summarize == ExecutiveSummary.Summarize
    ensures var g := Generation(s.script, first, s.maxRetries, prompts.summary, s.maxTokens, s.temperature).0;
      var e := SummaryOutcome(s, first, prompts).0;
      (e.Err? <==> g.Err?) && (e.Err? ==> e.error == g.error) &&
      (e.Ok? ==> ExecutiveSummary.Stripped(e.value.summary) && |e.value.summary| <= |g.value| &&
                 e.value.length == |e.value.summary| &&
                 e.value.sentenceCount == |set k | 0 <= k < |e.value.summary| && e.value.summary[k] in ".!?"|)
  {
    var g := Generation(s.script, first, s.maxRetries, prompts.summary, s.maxTokens, s.temperature).0;
    if g.Ok? {
      ExecutiveSummary.SummarizeSpec(g.value);
    }
  }

  /** The risk entries leave every other key as it was. */
  lemma WithRisksKeeps(m: map<string, Json>, r: Result<Option<Json>>, key: string)
    requires key !in RISK_KEYS
    ensures (key in WithRisks(m, r) <==> key in m) && (key in m ==> WithRisks(m, r)[key] == m[key])
  {
  }

  // ----------------------------------------------------------------- the class

  class ReportSynthesizer {
    const provider: AnthropicProvider
    const maxTokens: int
    const temperature: real
    /** The `build_prompt` and `parse_response` functions of the two prompt modules. */
    const summaryPrompt: Context -> string
    const risksPrompt: Context -> Option<string>
    const summarize: string -> ExecutiveSummary.SummaryResult
    const parseRisks: (string, string -> Decoded) -> Result<Json>

    constructor (provider: AnthropicProvider, maxTokens: int, temperature: real)
      ensures this.provider == provider && this.maxTokens == maxTokens && this.temperature == temperature
      ensures summaryPrompt == ExecutiveSummary.Prompt && risksPrompt == RiskAnalysis.Prompt
      ensures summarize == ExecutiveSummary.Summarize && parseRisks == RiskAnalysis.ParseResponse
    {
      this.provider := provider;
      this.maxTokens := maxTokens;
      this.temperature := temperature;
      summaryPrompt := ExecutiveSummary.Prompt;
      risksPrompt := RiskAnalysis.Prompt;
      summarize := ExecutiveSummary.Summarize;
      parseRisks := RiskAnalysis.ParseResponse;
    }

    function PromptsOf(ctx: Context): Prompts {
      Prompts(summaryPrompt(ctx), risksPrompt(ctx))
    }

    function Settings(): Setup {
      Setup(provider.client.script, provider.maxRetries, provider.model, maxTokens, temperature, summarize, parseRisks)
    }

    /** The provider's counters, delays and client requests grew by `t`, and
        the earlier requests are kept. */
    predicate Advanced(inputTokens0: nat, outputTokens0: nat, sleeps0: seq<real>, requests0: seq<Request>, t: Tally)
      reads provider, provider.client
    {
      provider.inputTokens == inputTokens0 + t.inputTokens &&
      provider.outputTokens == outputTokens0 + t.outputTokens &&
      provider.sleeps == sleeps0 + t.sleeps &&
      |provider.client.requests| == |requests0| + t.calls &&
      provider.client.requests[..|requests0|] == requests0
    }

    /** A request made with the synthesizer's generation parameters and one of
        its two system prompts. */
    predicate Sent(q: Request) {
      q.maxTokens == maxTokens && q.temperature == temperature && (q.system == EXEC_SYSTEM || q.system == RISK_SYSTEM)
    }

    method GenerateExecutiveSummary(ctx: Context) returns (r: Result<ExecutiveSummary.SummaryResult>)
      modifies provider, provider.client
      ensures var o := SummaryOutcome(Settings(), |old(provider.client.requests)|, PromptsOf(ctx));
        r == o.0 &&
        Advanced(old(provider.inputTokens), old(provider.outputTokens), old(provider.sleeps), old(provider.client.requests), o.1) &&
        forall i :: |old(provider.client.requests)| <= i < |provider.client.requests| ==>
          provider.client.requests[i] == Request(provider.model, maxTokens, temperature, EXEC_SYSTEM, summaryPrompt(ctx))
    {
      var prompt := summaryPrompt(ctx);
      var response := provider.Generate(prompt, Some(EXEC_SYSTEM), maxTokens, temperature);
      if response.Err? {
        return Err(response.error);
      }
      return Ok(summarize(response.value));
    }

    method AnalyzeRisks(ctx: Context, decode: string -> Decoded) returns (r: Result<Option<Json>>)
      modifies provider, provider.client
      ensures var o := RisksOutcome(Settings(), |old(provider.client.requests)|, PromptsOf(ctx), decode);
        r == o.0 &&
        Advanced(old(provider.inputTokens), old(provider.outputTokens), old(provider.sleeps), old(provider.client.requests), o.1) &&
        forall i :: |old(provider.client.requests)| <= i < |provider.client.requests| ==>
          provider.client.requests[i] == Request(provider.model, maxTokens, temperature, RISK_SYSTEM, risksPrompt(ctx).value)
    {
      var prompt := risksPrompt(ctx);
      if prompt.None? {
        return Ok(None);
      }
      var response := provider.Generate(prompt.value, Some(RISK_SYSTEM), maxTokens, temperature);
      if response.Err? {
        return Err(response.error);
      }
      var parsed := parseRisks(response.value, decode);
      if parsed.Err? {
        return Err(parsed.error);
      }
      return Ok(Some(parsed.value));
    }

    /** The summary step of `synthesize` on the entries so far: when `run`, one
        executive summary and its entries. */
    method SummaryStep(ctx: Context, synthesis: map<string, Json>, run: bool)
      returns (m: map<string, Json>, ghost e: (Result<ExecutiveSummary.SummaryResult>, Tally))
      modifies provider, provider.client
      ensures e == if run then SummaryOutcome(Settings(), |old(provider.client.requests)|, PromptsOf(ctx)) else (Err(ValueError("")), NoTally)
      ensures m == if run then WithSummary(synthesis, e.0) else synthesis
      ensures Advanced(old(provider.inputTokens), old(provider.outputTokens), old(provider.sleeps), old(provider.client.requests), e.1)
      ensures forall i :: |old(provider.client.requests)| <= i < |provider.client.requests| ==> Sent(provider.client.requests[i])
    {
      m := synthesis;
      e := (Err(ValueError("")), NoTally);
      if run {
        var summary := GenerateExecutiveSummary(ctx);
        e := SummaryOutcome(Settings(), |old(provider.client.requests)|, PromptsOf(ctx));
        match summary {
          case Ok(p) =>
            m := m[EXECUTIVE_SUMMARY := JStr(p.summary)];
            m := m["executive_summary_metadata" :=
              JObj(map["length" := JNum(p.length), "sentence_count" := JNum(p.sentenceCount)])];
          case Err(f) =>
            m := m[EXECUTIVE_SUMMARY := JNull];
            m := m["executive_summary_error" := JStr(Message(f))];
        }
      } else {
        assert provider.client.requests[..|provider.client.requests|] == provider.client.requests;
      }
      assert provider.inputTokens == old(provider.inputTokens) + e.1.inputTokens;
      assert provider.outputTokens == old(provider.outputTokens) + e.1.outputTokens;
      assert provider.sleeps == old(provider.sleeps) + e.1.sleeps;
      assert |provider.client.requests| == |old(provider.client.requests)| + e.1.calls;
    }

    /** The risk step of `synthesize` on the entries so far: when `run`, one risk
        analysis and its entries. */
    method RisksStep(ctx: Context, decode: string -> Decoded, synthesis: map<string, Json>, run: bool,
                     ghost inputTokens0: nat, ghost outputTokens0: nat, ghost sleeps0: seq<real>,
                     ghost requests0: seq<Request>, ghost prior: Tally)
      returns (m: map<string, Json>, ghost k: (Result<Option<Json>>, Tally))
      requires Advanced(inputTokens0, outputTokens0, sleeps0, requests0, prior)
      requires forall i :: |requests0| <= i < |provider.client.requests| ==> Sent(provider.client.requests[i])
      modifies provider, provider.client
      ensures k == if run then RisksOutcome(Settings(), |requests0| + prior.calls, PromptsOf(ctx), decode) else (Ok(None), NoTally)
      ensures m == WithRisks(synthesis, k.0)
      ensures Advanced(inputTokens0, outputTokens0, sleeps0, requests0, Plus(prior, k.1))
      ensures |old(provider.client.requests)| <= |provider.client.requests| &&
        provider.client.requests[..|old(provider.client.requests)|] == old(provider.client.requests)
      ensures forall i :: |requests0| <= i < |provider.client.requests| ==> Sent(provider.client.requests[i])
    {
      m := synthesis;
      k := (Ok(None), NoTally);
      if run {
        var risks := AnalyzeRisks(ctx, decode);
        k := RisksOutcome(Settings(), |old(provider.client.requests)|, PromptsOf(ctx), decode);
        match risks {
          case Ok(None) =>
          case Ok(Some(v)) =>
            if Truthy(v) {
              m := m[RISK_ANALYSIS := v];
            }
          case Err(f) =>
            m := m[RISK_ANALYSIS := JNull];
            m := m["risk_analysis_error" := JStr(Message(f))];
        }
      } else {
        assert provider.client.requests[..|provider.client.requests|] == provider.client.requests;
      }
      Accumulate(inputTokens0, old(provider.inputTokens), provider.inputTokens, outputTokens0, old(provider.outputTokens),
        provider.outputTokens, sleeps0, old(provider.sleeps), provider.sleeps, prior, k.1);
      assert provider.client.requests[..|requests0|] == provider.client.requests[..|old(provider.client.requests)|][..|requests0|];
      assert |provider.client.requests| == |requests0| + Plus(prior, k.1).calls;
      forall i | |requests0| <= i < |old(provider.client.requests)|
        ensures Sent(provider.client.requests[i])
      {
        assert provider.client.requests[i] == provider.client.requests[..|old(provider.client.requests)|][i];
      }
    }

    /** The context with the synthesis added and every other entry kept; the
        provider's counters grew by what the calls did, and every request used
        the synthesizer's generation parameters. */
    method Synthesize(ctx: Context, features: Option<map<string, bool>>, now: string, decode: string -> Decoded)
      returns (r: Context)
      modifies provider, provider.client
      ensures var o := Synthesis(provider.model, AnalysesOf(Settings(), PromptsOf(ctx), decode), |old(provider.client.requests)|, features, now);
        r == ctx.(synthesis := Some(o.synthesis)) &&
        Advanced(old(provider.inputTokens), old(provider.outputTokens), old(provider.sleeps), old(provider.client.requests), o.tally)
      ensures forall i :: |old(provider.client.requests)| <= i < |provider.client.requests| ==> Sent(provider.client.requests[i])
    {
      ghost var requests0 := provider.client.requests;
      var runSummary := Enabled(features, EXECUTIVE_SUMMARY);
      var runRisks := Enabled(features, RISK_ANALYSIS);
      var synthesis := map["generated_at" := JStr(now), "model" := JStr(provider.model)];
      ghost var e, k;
      synthesis, e := SummaryStep(ctx, synthesis, runSummary);
      synthesis, k := RisksStep(ctx, decode, synthesis, runRisks,
        old(provider.inputTokens), old(provider.outputTokens), old(provider.sleeps), requests0, e.1);
      SynthesisSteps(Settings(), PromptsOf(ctx), decode, |requests0|, features, now, e, k, synthesis);
      r := ctx.(synthesis := Some(synthesis));
    }

    method GetTokenUsage() returns (input: nat, output: nat)
      ensures input == provider.inputTokens && output == provider.outputTokens
    {
      input, output := provider.GetTokenUsage();
    }

    method ResetTokenUsage()
      modifies provider
      ensures provider.inputTokens == 0 && provider.outputTokens == 0 && provider.sleeps == old(provider.sleeps)
    {
      provider.ResetTokenUsage();
    }
  }
}
