/** The executive view: only the groups needing attention, a count of the
    rest, the synthesis emphasised, and deliverables cut to four fields. */
module ExecutiveRenderer {
  import opened Wrappers
  import opened JsonValues
  import opened Seqs
  import opened Report
  import opened Views
  import KprBuilder

  const TEMPLATE := "template_executive.html"
  const AUDIENCE := "Executive"

  const HAS_SYNTHESIS := "has_synthesis"
  const SYNTHESIS_EMPHASIZED := "synthesis_emphasized"

  /** The number of deliverables in the groups that do not need attention. */
  function OnTrackCount(groups: seq<StatusGroup>): nat {
    if groups == [] then 0
    else
      var last := groups[|groups| - 1];
      OnTrackCount(groups[..|groups| - 1]) + (if IsCritical(last.0) then 0 else |last.1|)
  }

  /** Every critical group is kept, in order. */
  lemma {:induction false} CriticalGroupsComplete(groups: seq<StatusGroup>)
    ensures forall g :: g in groups && IsCritical(g.0) ==> g in CriticalGroups(groups)
  {
    if groups != [] {
      var n := |groups| - 1;
      CriticalGroupsComplete(groups[..n]);
      assert groups == groups[..n] + [groups[n]];
    }
  }

  /** Each deliverable is either shown in a critical group or counted as on
      track, never both. */
  lemma {:induction false} OnTrackPartition(groups: seq<StatusGroup>)
    ensures ItemCount(CriticalGroups(groups)) + OnTrackCount(groups) == ItemCount(groups)
  {
    if groups != [] {
      var n := |groups| - 1;
      var last := groups[n];
      OnTrackPartition(groups[..n]);
      var shown := if IsCritical(last.0) then [last] else [];
      ItemCountAppend(CriticalGroups(groups[..n]), shown);
      ItemCountOne(last);
      assert shown == [] ==> ItemCount(shown) == 0;
    }
  }

  /** `{"deliverable": d.get("deliverable"), ...}`. */
  function Summary(d: Deliverable): ItemSummary {
    ItemSummary(Field(d, "deliverable"), Field(d, "status"), Field(d, "lead"), Field(d, "risks_issues"))
  }

  /** `"synthesis" in context and context["synthesis"]`. */
  predicate HasSynthesis(ctx: Context) {
    ctx.synthesis.Some? && ctx.synthesis.value != map[]
  }

  function Flags(ctx: Context): map<string, Json> {
    map[VIEW_TYPE := JStr("executive"), SHOW_TECHNICAL_DETAILS := JBool(false)] +
    (if HasSynthesis(ctx) then map[HAS_SYNTHESIS := JBool(true), SYNTHESIS_EMPHASIZED := JBool(true)] else map[])
  }

  /** `ExecutiveRenderer.transform_context`. */
  function ExecutiveView(ctx: Context): View {
    var v := Plain(ctx, Flags(ctx));
    var v := if ctx.statusGroups.Some? then
        v.(statusGroupsFiltered := Some(CriticalGroups(ctx.statusGroups.value)),
           onTrackCount := Some(OnTrackCount(ctx.statusGroups.value)))
      else v;
    if ctx.deliverables.Some? then
      v.(deliverablesSummary := Some(Map(Summary, ctx.deliverables.value)))
    else v
  }

  /** The view keeps the whole context and the synthesis, marks itself as the
      executive view without technical details, and emphasises a non-empty
      synthesis; an empty or missing synthesis sets no emphasis. */
  lemma ExecutiveViewFlags(ctx: Context)
    ensures Keeps(ctx, ExecutiveView(ctx), {VIEW_TYPE, SHOW_TECHNICAL_DETAILS, HAS_SYNTHESIS, SYNTHESIS_EMPHASIZED})
    ensures ExecutiveView(ctx).context.synthesis == ctx.synthesis
    ensures ExecutiveView(ctx).context.extra[VIEW_TYPE] == JStr("executive")
    ensures ExecutiveView(ctx).context.extra[SHOW_TECHNICAL_DETAILS] == JBool(false)
    ensures HasSynthesis(ctx) ==>
      ExecutiveView(ctx).context.extra[HAS_SYNTHESIS] == JBool(true) &&
      ExecutiveView(ctx).context.extra[SYNTHESIS_EMPHASIZED] == JBool(true)
    ensures !HasSynthesis(ctx) ==>
      (HAS_SYNTHESIS in ExecutiveView(ctx).context.extra <==> HAS_SYNTHESIS in ctx.extra) &&
      (SYNTHESIS_EMPHASIZED in ExecutiveView(ctx).context.extra <==> SYNTHESIS_EMPHASIZED in ctx.extra) &&
      (HAS_SYNTHESIS in ctx.extra ==> ExecutiveView(ctx).context.extra[HAS_SYNTHESIS] == ctx.extra[HAS_SYNTHESIS]) &&
      (SYNTHESIS_EMPHASIZED in ctx.extra ==>
        ExecutiveView(ctx).context.extra[SYNTHESIS_EMPHASIZED] == ctx.extra[SYNTHESIS_EMPHASIZED])
  {
    assert ExecutiveView(ctx).context == ctx.(extra := ctx.extra + Flags(ctx));
  }

  /** With status groups, exactly the critical groups are shown, in their
      original order,
      and every other deliverable is counted: shown and counted deliverables
      add up to all of them. Without, neither key is set. */
  lemma ExecutiveViewGroups(ctx: Context)
    ensures ctx.statusGroups.None? ==>
      ExecutiveView(ctx).statusGroupsFiltered.None? && ExecutiveView(ctx).onTrackCount.None?
    ensures ctx.statusGroups.Some? ==>
      ExecutiveView(ctx).statusGroupsFiltered.Some? && ExecutiveView(ctx).onTrackCount.Some? &&
      ExecutiveView(ctx).statusGroupsFiltered.value == Filter(IsCriticalGroup, ctx.statusGroups.value) &&
      (forall g :: g in ExecutiveView(ctx).statusGroupsFiltered.value <==> g in ctx.statusGroups.value && IsCritical(g.0)) &&
      ItemCount(ExecutiveView(ctx).statusGroupsFiltered.value) + ExecutiveView(ctx).onTrackCount.value ==
        ItemCount(ctx.statusGroups.value)
  {
    if ctx.statusGroups.Some? {
      CriticalGroupsComplete(ctx.statusGroups.value);
      OnTrackPartition(ctx.statusGroups.value);
    }
  }

  /** One summary per deliverable, in order, holding its four shown fields. */
  lemma ExecutiveViewDeliverables(ctx: Context)
    ensures ctx.deliverables.None? ==> ExecutiveView(ctx).deliverablesSummary.None?
    ensures ctx.deliverables.Some? ==>
      ExecutiveView(ctx).deliverablesSummary.Some? &&
      |ExecutiveView(ctx).deliverablesSummary.value| == |ctx.deliverables.value| &&
      forall i :: 0 <= i < |ctx.deliverables.value| ==>
        var s, d := ExecutiveView(ctx).deliverablesSummary.value[i], ctx.deliverables.value[i];
        s.deliverable == Field(d, "deliverable") && s.status == Field(d, "status") &&
        s.lead == Field(d, "lead") && s.risksIssues == Field(d, "risks_issues")
  {
  }

  /** On a built report context, the shown and counted deliverables add up
      to the total. */
  lemma ReportCountsAddUp(data: seq<Deliverable>, reportDate: string)
    ensures var v := ExecutiveView(KprBuilder.KprContext(data, reportDate));
      v.statusGroupsFiltered.Some? && v.onTrackCount.Some? &&
      ItemCount(v.statusGroupsFiltered.value) + v.onTrackCount.value == |data|
  {
    KprBuilder.StatusGroupsSpec(data);
    ExecutiveViewGroups(KprBuilder.KprContext(data, reportDate));
  }
}
