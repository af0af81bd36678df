/** The technical view: everything, with every deliverable flagged to show
    its updates, next steps and blockers. */
module TechnicalRenderer {
  import opened Wrappers
  import opened JsonValues
  import opened Seqs
  import opened Report
  import opened Views

  const TEMPLATE := "template_technical.html"
  const AUDIENCE := "Technical"

  const SHOW_ALL_DELIVERABLES := "show_all_deliverables"
  const RISK_ANALYSIS_EXPANDED := "risk_analysis_expanded"

  /** The keys `{**d, "show_updates": True, ...}` overrides. */
  const ITEM_FLAGS := {"show_updates", "show_next_steps", "show_blockers"}

  function Detailed(d: Deliverable): DetailedItem {
    DetailedItem(d.fields - ITEM_FLAGS, d.leads, true, true, true)
  }

  /** `context.get("synthesis", {}).get("risk_analysis")` is truthy. */
  predicate RiskAnalysisPresent(ctx: Context) {
    ctx.synthesis.Some? && "risk_analysis" in ctx.synthesis.value && Truthy(ctx.synthesis.value["risk_analysis"])
  }

  function Flags(ctx: Context): map<string, Json> {
    map[VIEW_TYPE := JStr("technical"), SHOW_TECHNICAL_DETAILS := JBool(true), SHOW_ALL_DELIVERABLES := JBool(true)] +
    (if RiskAnalysisPresent(ctx) then map[RISK_ANALYSIS_EXPANDED := JBool(true)] else map[])
  }

  /** `TechnicalRenderer.transform_context`. */
  function TechnicalView(ctx: Context): View {
    var v := Plain(ctx, Flags(ctx)).(statusGroupsFiltered := ctx.statusGroups);
    if ctx.deliverables.Some? then
      v.(deliverablesDetailed := Some(Map(Detailed, ctx.deliverables.value)))
    else v
  }

  /** Nothing is filtered: the context, its synthesis and all status groups
      are kept, and the view is marked technical with all details shown; the
      risk analysis is expanded exactly when the synthesis holds a truthy one. */
  lemma TechnicalViewSpec(ctx: Context)
    ensures Keeps(ctx, TechnicalView(ctx), {VIEW_TYPE, SHOW_TECHNICAL_DETAILS, SHOW_ALL_DELIVERABLES, RISK_ANALYSIS_EXPANDED})
    ensures TechnicalView(ctx).context.synthesis == ctx.synthesis
    ensures TechnicalView(ctx).statusGroupsFiltered == ctx.statusGroups
    ensures TechnicalView(ctx).context.extra[VIEW_TYPE] == JStr("technical")
    ensures TechnicalView(ctx).context.extra[SHOW_TECHNICAL_DETAILS] == JBool(true)
    ensures TechnicalView(ctx).context.extra[SHOW_ALL_DELIVERABLES] == JBool(true)
    ensures RiskAnalysisPresent(ctx) ==> TechnicalView(ctx).context.extra[RISK_ANALYSIS_EXPANDED] == JBool(true)
    ensures !RiskAnalysisPresent(ctx) ==>
      (RISK_ANALYSIS_EXPANDED in TechnicalView(ctx).context.extra <==> RISK_ANALYSIS_EXPANDED in ctx.extra)
  {
    assert TechnicalView(ctx).context == ctx.(extra := ctx.extra + Flags(ctx));
  }

  /** Every deliverable is shown, in order, with all its fields and leads and
      the three display flags set. */
  lemma TechnicalViewDeliverables(ctx: Context)
    ensures ctx.deliverables.None? ==> TechnicalView(ctx).deliverablesDetailed.None?
    ensures ctx.deliverables.Some? ==>
      TechnicalView(ctx).deliverablesDetailed.Some? &&
      |TechnicalView(ctx).deliverablesDetailed.value| == |ctx.deliverables.value| &&
      forall i :: 0 <= i < |ctx.deliverables.value| ==>
        var e, d := TechnicalView(ctx).deliverablesDetailed.value[i], ctx.deliverables.value[i];
        e.leads == d.leads && e.showUpdates && e.showNextSteps && e.showBlockers &&
        forall k :: k in d.fields && k !in ITEM_FLAGS ==> k in e.fields && e.fields[k] == d.fields[k]
  {
  }
}
