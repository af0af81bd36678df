/** The context an audience renderer hands to its template. */
module Views {
  import opened Wrappers
  import opened JsonValues
  import opened Report

  /** A deliverable cut down to the four fields the executive and partner
      views show; `None` where `d.get(key)` gives `None`. */
  datatype ItemSummary = ItemSummary(
    deliverable: Option<string>,
    status: Option<string>,
    lead: Option<string>,
    risksIssues: Option<string>)

  /** A deliverable with all its fields and the three display flags of the
      technical view; a field named like a flag is replaced by the flag. */
  datatype DetailedItem = DetailedItem(
    fields: map<string, string>,
    leads: Option<map<string, seq<string>>>,
    showUpdates: bool,
    showNextSteps: bool,
    showBlockers: bool)

  /** The dictionary `{**context, ...}` a renderer builds: the input context,
      whose `extra` also receives the flag keys the renderer sets, and the
      structured keys it adds, each `None` when not set. */
  datatype View = View(
    context: Context,
    statusGroupsFiltered: Option<seq<StatusGroup>>,
    onTrackCount: Option<int>,
    statusSummary: Option<map<string, int>>,
    deliverablesSummary: Option<seq<ItemSummary>>,
    deliverablesSanitized: Option<seq<ItemSummary>>,
    deliverablesDetailed: Option<seq<DetailedItem>>)

  /** A view that adds nothing but the flags to the context. */
  function Plain(ctx: Context, flags: map<string, Json>): View {
    View(ctx.(extra := ctx.extra + flags), None, None, None, None, None, None)
  }

  const VIEW_TYPE := "view_type"
  const SHOW_TECHNICAL_DETAILS := "show_technical_details"

  /** Everything of the input context survives, except the flag keys, which
      the new values replace. */
  predicate Keeps(ctx: Context, v: View, flags: set<string>) {
    v.context.statusGroups == ctx.statusGroups &&
    v.context.deliverables == ctx.deliverables &&
    v.context.totalDeliverables == ctx.totalDeliverables &&
    v.context.reportDate == ctx.reportDate &&
    (forall k :: k in ctx.extra && k !in flags ==> k in v.context.extra && v.context.extra[k] == ctx.extra[k])
  }
}
