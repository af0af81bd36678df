/** The partner view: status counts instead of items, deliverables with the
    lead hidden and the risk text cut short, and a synthesis whose risk
    analysis keeps only the themes that are not of high severity. */
module PartnerRenderer {
  import opened Wrappers
  import opened Text
  import opened Seqs
  import opened JsonValues
  import opened Report
  import opened Views
  import Synthesizer

  const TEMPLATE := "template_partner.html"
  const AUDIENCE := "Partner"

  const EXTERNAL_VIEW := "external_view"
  const SHOW_DETAILED_ITEMS := "show_detailed_items"
  const RISK_ANALYSIS := "risk_analysis"
  const THEMES := "themes"

  // ------------------------------------------------------------ status counts

  /** `{status: len(items) for status, items in groups}`: a later group of
      the same status overwrites an earlier one. */
  function StatusSummary(groups: seq<StatusGroup>): map<string, int> {
    if groups == [] then map[]
    else
      var last := groups[|groups| - 1];
      StatusSummary(groups[..|groups| - 1])[last.0 := |last.1|]
  }

  /** There is one count per status, and it is the size of the last group
      with that status. */
  lemma {:induction false} StatusSummarySpec(groups: seq<StatusGroup>)
    ensures StatusSummary(groups).Keys == set g | g in groups :: g.0
    ensures forall i :: 0 <= i < |groups| && (forall j :: i < j < |groups| ==> groups[j].0 != groups[i].0) ==>
      StatusSummary(groups)[groups[i].0] == |groups[i].1|
  {
    if groups != [] {
      var n := |groups| - 1;
      var prefix := groups[..n];
      StatusSummarySpec(prefix);
      assert groups == prefix + [groups[n]];
      forall i | 0 <= i < n && (forall j :: i < j < |groups| ==> groups[j].0 != groups[i].0)
        ensures StatusSummary(groups)[groups[i].0] == |groups[i].1|
      {
        assert groups[n].0 != groups[i].0;
        assert prefix[i] == groups[i];
        assert forall j :: i < j < |prefix| ==> prefix[j].0 != prefix[i].0;
      }
    }
  }

  // ------------------------------------------------------------ deliverables

  /** Risk texts shown as "No issues reported", compared in lower case. */
  const PLACEHOLDERS := ["none", "n/a", ""]
  const NO_ISSUES := "No issues reported"
  const MAX_TEXT := 200
  const INTERNAL_TEAM := "Internal Team"

  predicate IsPlaceholder(text: string) {
    text == [] || Lower(text) in PLACEHOLDERS
  }

  /** `_sanitize_text`. */
  function SanitizeText(text: string): string {
    if IsPlaceholder(text) then NO_ISSUES else Truncate(text, MAX_TEXT)
  }

  /** A sanitized text is never longer than the limit and the ellipsis; an
      empty or placeholder text reads "No issues reported"; any other text is
      kept whole when it fits and otherwise keeps its first 200 characters. */
  lemma SanitizeTextSpec(text: string)
    ensures |SanitizeText(text)| <= MAX_TEXT + 3
    ensures IsPlaceholder(text) ==> SanitizeText(text) == NO_ISSUES
    ensures !IsPlaceholder(text) && |text| <= MAX_TEXT ==> SanitizeText(text) == text
    ensures !IsPlaceholder(text) && |text| > MAX_TEXT ==>
      SanitizeText(text) == text[..MAX_TEXT] + "..."
  {
  }

  /** Sanitizing twice changes nothing more. */
  lemma SanitizeTextIdempotent(text: string)
    ensures SanitizeText(SanitizeText(text)) == SanitizeText(text)
  {
    var r := SanitizeText(text);
    assert |Lower(r)| == |r|;
    if IsPlaceholder(text) {
      assert |NO_ISSUES| == 18;
    } else if |text| > MAX_TEXT {
      assert r[..MAX_TEXT] == text[..MAX_TEXT];
    }
  }

  /** `_sanitize_deliverable`. */
  function Sanitized(d: Deliverable): ItemSummary {
    ItemSummary(Some(Get(d, "deliverable", "")), Some(Get(d, "status", "")), Some(INTERNAL_TEAM),
      Some(SanitizeText(Get(d, "risks_issues", ""))))
  }

  /** The sanitized deliverable shows no lead: it depends on the name,
      status and risk text alone. */
  lemma SanitizedShowsNoLead(d: Deliverable, e: Deliverable)
    requires forall k :: k in ["deliverable", "status", "risks_issues"] ==> Get(d, k, "") == Get(e, k, "")
    ensures Sanitized(d) == Sanitized(e)
    ensures Sanitized(d).lead == Some(INTERNAL_TEAM)
  {
    assert "deliverable" in ["deliverable", "status", "risks_issues"];
    assert "status" in ["deliverable", "status", "risks_issues"];
    assert "risks_issues" in ["deliverable", "status", "risks_issues"];
  }

  // ------------------------------------------------------------ risk analysis

  /** The `TypeError` of `for x in j` on a value that is not a container. */
  function NotIterableObject(j: Json): Failure {
    TypeError("'" + TypeName(j) + "' object is not iterable")
  }

  /** The `AttributeError` of calling a method a value does not have. */
  function NoAttribute(j: Json, name: string): Failure {
    AttributeError("'" + TypeName(j) + "' object has no attribute '" + name + "'")
  }

  /** `for x in j`: a list's items, a dict's keys, a string's characters.
      A dict's keys come in insertion order in Python; here they come sorted,
      which no caller can tell apart, since each key alike fails as a theme. */
  function Iterate(j: Json): Result<seq<Json>> {
    match j
    case JArr(items) => Ok(items)
    case JObj(fields) => Ok(Map((k: string) => JStr(k), SortedElements(fields.Keys)))
    case JStr(s) => Ok(Map((c: char) => JStr([c]), s))
    case _ => Err(NotIterableObject(j))
  }

  /** `theme.get("severity", "").lower() != "high"`, or what it raises. */
  function Shown(theme: Json): Result<bool> {
    match theme
    case JObj(fields) =>
      var severity := if "severity" in fields then fields["severity"] else JStr("");
      if severity.JStr? then Ok(Lower(severity.s) != "high") else Err(NoAttribute(severity, "lower"))
    case _ => Err(NoAttribute(theme, "get"))
  }

  /** A theme the partner may see: a dict whose severity is not "high" in any case. */
  predicate Kept(theme: Json) {
    Shown(theme) == Ok(true)
  }

  /** The list comprehension over the themes: the kept ones in order, or the
      first error. */
  function KeptThemes(themes: seq<Json>): Result<seq<Json>> {
    if themes == [] then Ok([])
    else
      var n := |themes| - 1;
      match KeptThemes(themes[..n])
      case Err(f) => Err(f)
      case Ok(kept) =>
        match Shown(themes[n])
        case Err(f) => Err(f)
        case Ok(keep) => Ok(kept + (if keep then [themes[n]] else []))
  }

  /** The comprehension succeeds exactly when every theme is a dict with a
      text severity (or none), and then keeps exactly the kept themes, in order. */
  lemma {:induction false} KeptThemesSpec(themes: seq<Json>)
    ensures KeptThemes(themes).Ok? <==> forall k :: 0 <= k < |themes| ==> Shown(themes[k]).Ok?
    ensures KeptThemes(themes).Ok? ==> KeptThemes(themes).value == Filter(Kept, themes)
  {
    if themes != [] {
      var n := |themes| - 1;
      KeptThemesSpec(themes[..n]);
      assert forall k :: 0 <= k < n ==> themes[..n][k] == themes[k];
    }
  }

  /** `_sanitize_risk_analysis` as written: only a dict's themes survive; a
      null, a boolean or a number makes the `in` test raise. */
  function SanitizeRiskAnalysisAsWritten(ra: Json): Result<Json> {
    match PyContains(ra, THEMES)
    case None => Err(NotIterable(ra))
    case Some(found) =>
      if !found then Ok(JObj(map[]))
      else
        match Subscript(ra, THEMES)
        case Err(f) => Err(f)
        case Ok(themes) =>
          match Iterate(themes)
          case Err(f) => Err(f)
          case Ok(items) =>
            match KeptThemes(items)
            case Err(f) => Err(f)
            case Ok(kept) => Ok(JObj(map[THEMES := JArr(kept)]))
  }

  /** The null a failed risk analysis leaves makes the sanitizer raise. */
  lemma NullRiskAnalysisRaises()
    ensures SanitizeRiskAnalysisAsWritten(JNull) == Err(NotIterable(JNull))
  {
  }

  /** The sanitizer as intended: a risk analysis that is not a dict has no
      themes to show. */
  function SanitizeRiskAnalysis(ra: Json): Result<Json> {
    if ra.JObj? then SanitizeRiskAnalysisAsWritten(ra) else Ok(JObj(map[]))
  }

  /** The sanitized analysis is a dict holding at most the themes, never the
      critical risks or the anomalies, and every theme it holds is kept; a
      dict with a list of well-formed themes gives exactly its kept themes, a
      dict without themes or a value that is not a dict gives an empty dict. */
  lemma SanitizeRiskAnalysisSpec(ra: Json)
    ensures SanitizeRiskAnalysis(ra).Ok? ==>
      SanitizeRiskAnalysis(ra).value.JObj? && SanitizeRiskAnalysis(ra).value.fields.Keys <= {THEMES}
    ensures SanitizeRiskAnalysis(ra).Ok? && THEMES in SanitizeRiskAnalysis(ra).value.fields ==>
      SanitizeRiskAnalysis(ra).value.fields[THEMES].JArr? &&
      forall t :: t in SanitizeRiskAnalysis(ra).value.fields[THEMES].items ==> Kept(t)
    ensures !ra.JObj? || THEMES !in ra.fields ==> SanitizeRiskAnalysis(ra) == Ok(JObj(map[]))
    ensures (ra.JObj? && THEMES in ra.fields && ra.fields[THEMES].JArr? &&
             forall k :: 0 <= k < |ra.fields[THEMES].items| ==> Shown(ra.fields[THEMES].items[k]).Ok?) ==>
      SanitizeRiskAnalysis(ra) == Ok(JObj(map[THEMES := JArr(Filter(Kept, ra.fields[THEMES].items))]))
  {
    if ra.JObj? && THEMES in ra.fields {
      var themes := ra.fields[THEMES];
      match Iterate(themes)
      case Ok(items) => KeptThemesSpec(items);
      case Err(_) =>
    }
  }

  // ------------------------------------------------------------ the view

  /** The synthesis with its risk analysis, when it has one, sanitized. */
  function SanitizedSynthesis(synthesis: map<string, Json>, sanitize: Json -> Result<Json>): Result<map<string, Json>> {
    if RISK_ANALYSIS in synthesis then
      match sanitize(synthesis[RISK_ANALYSIS])
      case Err(f) => Err(f)
      case Ok(s) => Ok(synthesis[RISK_ANALYSIS := s])
    else Ok(synthesis)
  }

  /** `"synthesis" in context and context.get("synthesis")`. */
  predicate HasSynthesis(ctx: Context) {
    ctx.synthesis.Some? && ctx.synthesis.value != map[]
  }

  function Flags(ctx: Context): map<string, Json> {
    map[VIEW_TYPE := JStr("partner"), SHOW_TECHNICAL_DETAILS := JBool(false), EXTERNAL_VIEW := JBool(true)] +
    (if ctx.statusGroups.Some? then map[SHOW_DETAILED_ITEMS := JBool(false)] else map[])
  }

  /** `PartnerRenderer.transform_context` with a given risk-analysis sanitizer. */
  function PartnerViewWith(ctx: Context, sanitize: Json -> Result<Json>): Result<View> {
    var v := Plain(ctx, Flags(ctx));
    var v := if ctx.statusGroups.Some? then v.(statusSummary := Some(StatusSummary(ctx.statusGroups.value))) else v;
    var v := if ctx.deliverables.Some? then v.(deliverablesSanitized := Some(Map(Sanitized, ctx.deliverables.value))) else v;
    if HasSynthesis(ctx) then
      match SanitizedSynthesis(ctx.synthesis.value, sanitize)
      case Err(f) => Err(f)
      case Ok(s) => Ok(v.(context := v.context.(synthesis := Some(s))))
    else Ok(v)
  }

  /** The view as written. */
  function PartnerViewAsWritten(ctx: Context): Result<View> {
    PartnerViewWith(ctx, SanitizeRiskAnalysisAsWritten)
  }

  /** The view with the intended sanitizer. */
  function PartnerView(ctx: Context): Result<View> {
    PartnerViewWith(ctx, SanitizeRiskAnalysis)
  }

  /** A synthesis whose risk analysis failed makes the partner view as written
      raise, while the intended one succeeds. */
  lemma FailedRiskAnalysisBreaksPartnerView(ctx: Context, m: map<string, Json>, f: Failure)
    requires ctx.synthesis == Some(Synthesizer.WithRisks(m, Err(f)))
    ensures PartnerViewAsWritten(ctx).Err?
    ensures PartnerView(ctx).Ok?
  {
    var s := Synthesizer.WithRisks(m, Err(f));
    assert RISK_ANALYSIS in s && s[RISK_ANALYSIS] == JNull;
    assert HasSynthesis(ctx);
    NullRiskAnalysisRaises();
  }

  /** Where the sanitizer as written succeeds it agrees with the intended one.
      It fails on a null, a boolean or a number, on a list or a string in
      which `in` finds "themes", and on a dict exactly where the intended one
      fails. */
  lemma SanitizeAsWrittenSpec(ra: Json)
    ensures SanitizeRiskAnalysisAsWritten(ra).Ok? ==> SanitizeRiskAnalysisAsWritten(ra) == SanitizeRiskAnalysis(ra)
    ensures SanitizeRiskAnalysisAsWritten(ra).Err? <==>
      if ra.JObj? then SanitizeRiskAnalysis(ra).Err? else PyContains(ra, THEMES) != Some(false)
  {
  }

  /** Each view fails only when the synthesis holds a risk analysis its
      sanitizer cannot handle. For the intended view that is a dict whose
      themes are not a list of dicts with text severities; the view as written
      also fails on a null, a boolean or a number, and on a list or string
      holding "themes". Where the view as written succeeds it is the intended
      view, so every property of the intended view holds of it. */
  lemma PartnerViewOutcome(ctx: Context)
    ensures PartnerView(ctx).Err? <==>
      HasSynthesis(ctx) && RISK_ANALYSIS in ctx.synthesis.value &&
      SanitizeRiskAnalysis(ctx.synthesis.value[RISK_ANALYSIS]).Err?
    ensures PartnerView(ctx).Err? ==> ctx.synthesis.value[RISK_ANALYSIS].JObj?
    ensures PartnerViewAsWritten(ctx).Err? <==>
      HasSynthesis(ctx) && RISK_ANALYSIS in ctx.synthesis.value &&
      SanitizeRiskAnalysisAsWritten(ctx.synthesis.value[RISK_ANALYSIS]).Err?
    ensures (HasSynthesis(ctx) && RISK_ANALYSIS in ctx.synthesis.value &&
             !ctx.synthesis.value[RISK_ANALYSIS].JObj? &&
             PyContains(ctx.synthesis.value[RISK_ANALYSIS], THEMES) != Some(false)) ==>
      PartnerViewAsWritten(ctx).Err?
    ensures PartnerView(ctx).Err? ==> PartnerViewAsWritten(ctx).Err?
    ensures PartnerViewAsWritten(ctx).Ok? ==> PartnerViewAsWritten(ctx) == PartnerView(ctx)
  {
    if HasSynthesis(ctx) && RISK_ANALYSIS in ctx.synthesis.value {
      SanitizeAsWrittenSpec(ctx.synthesis.value[RISK_ANALYSIS]);
    }
  }

  /** The view keeps the context, marks itself as the external partner view
      without technical details, and replaces the status groups by one count
      per status, hiding the items. */
  lemma PartnerViewFlags(ctx: Context)
    requires PartnerView(ctx).Ok?
    ensures Keeps(ctx, PartnerView(ctx).value, {VIEW_TYPE, SHOW_TECHNICAL_DETAILS, EXTERNAL_VIEW, SHOW_DETAILED_ITEMS})
    ensures PartnerView(ctx).value.context.extra[VIEW_TYPE] == JStr("partner")
    ensures PartnerView(ctx).value.context.extra[SHOW_TECHNICAL_DETAILS] == JBool(false)
    ensures PartnerView(ctx).value.context.extra[EXTERNAL_VIEW] == JBool(true)
    ensures ctx.statusGroups.Some? ==>
      PartnerView(ctx).value.context.extra[SHOW_DETAILED_ITEMS] == JBool(false) &&
      PartnerView(ctx).value.statusSummary == Some(StatusSummary(ctx.statusGroups.value)) &&
      PartnerView(ctx).value.statusSummary.value.Keys == set g | g in ctx.statusGroups.value :: g.0
    ensures ctx.statusGroups.None? ==> PartnerView(ctx).value.statusSummary.None?
  {
    var v := PartnerView(ctx).value;
    assert v.context.extra == ctx.extra + Flags(ctx);
    if ctx.statusGroups.Some? {
      StatusSummarySpec(ctx.statusGroups.value);
    }
  }

  /** Every deliverable is shown, in order, with its lead hidden and its risk
      text sanitized. */
  lemma PartnerViewDeliverables(ctx: Context)
    requires PartnerView(ctx).Ok?
    ensures ctx.deliverables.None? ==> PartnerView(ctx).value.deliverablesSanitized.None?
    ensures ctx.deliverables.Some? ==>
      PartnerView(ctx).value.deliverablesSanitized.Some? &&
      |PartnerView(ctx).value.deliverablesSanitized.value| == |ctx.deliverables.value| &&
      forall i :: 0 <= i < |ctx.deliverables.value| ==>
        PartnerView(ctx).value.deliverablesSanitized.value[i].lead == Some(INTERNAL_TEAM) &&
        PartnerView(ctx).value.deliverablesSanitized.value[i].risksIssues ==
          Some(SanitizeText(Get(ctx.deliverables.value[i], "risks_issues", "")))
  {
  }

  /** A non-empty synthesis keeps every entry but the risk analysis, whose
      sanitized form holds only kept themes; an empty or missing one is left
      as it is. */
  lemma PartnerViewSynthesis(ctx: Context)
    requires PartnerView(ctx).Ok?
    ensures !HasSynthesis(ctx) ==> PartnerView(ctx).value.context.synthesis == ctx.synthesis
    ensures HasSynthesis(ctx) ==>
      var s, t := ctx.synthesis.value, PartnerView(ctx).value.context.synthesis;
      t.Some? && t.value.Keys == s.Keys &&
      (forall k :: k in s && k != RISK_ANALYSIS ==> t.value[k] == s[k]) &&
      (RISK_ANALYSIS in s ==>
        t.value[RISK_ANALYSIS].JObj? && t.value[RISK_ANALYSIS].fields.Keys <= {THEMES} &&
        (THEMES in t.value[RISK_ANALYSIS].fields ==>
          t.value[RISK_ANALYSIS].fields[THEMES].JArr? &&
          forall th :: th in t.value[RISK_ANALYSIS].fields[THEMES].items ==> Kept(th)))
  {
    if HasSynthesis(ctx) && RISK_ANALYSIS in ctx.synthesis.value {
      SanitizeRiskAnalysisSpec(ctx.synthesis.value[RISK_ANALYSIS]);
    }
  }
}
