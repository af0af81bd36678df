/** The executive-summary prompt: the report context rendered as the status
    breakdown, the critical items and the reported risks, and the clean-up
    of the model's reply. */
module ExecutiveSummary {
  import opened Text
  import opened Report
  import opened Seqs

  const NO_STATUS := "  (No status information available)"
  const NO_DELIVERABLES := "  (No deliverables)"
  const NO_CRITICAL := "  (No critical items - all deliverables on track or complete)"
  const NO_RISKS := "  (No risks or issues reported)"

  /** Risk texts that say there is nothing to report, compared in lower case. */
  const BOILERPLATE := ["no risks or issues reported this week", "none", "n/a"]

  /** Reply openings the clean-up removes, tried in this order. */
  const PREAMBLES := ["Here is the executive summary:", "Executive Summary:", "Summary:"]

  /** Risk descriptions of critical items are cut to this many characters. */
  const RISK_LIMIT := 150

  // ---------------------------------------------------------------- breakdown

  /** One breakdown line: the status, its count and "deliverable", plural unless the count is 1. */
  function BreakdownLine(group: StatusGroup): string {
    var count := |group.1|;
    "  - " + group.0 + ": " + IntToString(count) + " deliverable" + (if count != 1 then "s" else "")
  }

  function BreakdownLines(groups: seq<StatusGroup>): seq<string> {
    if groups == [] then []
    else BreakdownLines(groups[..|groups| - 1]) + [BreakdownLine(groups[|groups| - 1])]
  }

  /** The breakdown section: one line per group, or a placeholder when there are no groups. */
  function StatusBreakdown(groups: seq<StatusGroup>): string {
    if groups == [] then NO_STATUS
    else
      var lines := BreakdownLines(groups);
      if lines != [] then Join(lines, "\n") else NO_DELIVERABLES
  }

  method FormatStatusBreakdown(groups: seq<StatusGroup>) returns (r: string)
    ensures r == StatusBreakdown(groups)
  {
    if groups == [] {
      return NO_STATUS;
    }
    var lines: seq<string> := [];
    var i := 0;
    while i < |groups|
      invariant 0 <= i <= |groups|
      invariant lines == BreakdownLines(groups[..i])
    {
      assert groups[..i + 1][..i] == groups[..i];
      lines := lines + [BreakdownLine(groups[i])];
      i := i + 1;
    }
    assert groups[..i] == groups;
    r := if lines != [] then Join(lines, "\n") else NO_DELIVERABLES;
  }

  /** The line for a group says "deliverables" exactly when its count is not 1. */
  lemma BreakdownLinePlural(group: StatusGroup)
    ensures var line := BreakdownLine(group);
      line[|line| - 1] == 's' <==> |group.1| != 1
  {
  }

  /** There is one breakdown line per group, in group order. */
  lemma {:induction false} BreakdownLinesSpec(groups: seq<StatusGroup>)
    ensures |BreakdownLines(groups)| == |groups|
    ensures forall k :: 0 <= k < |groups| ==> BreakdownLines(groups)[k] == BreakdownLine(groups[k])
  {
    if groups != [] {
      var n := |groups| - 1;
      BreakdownLinesSpec(groups[..n]);
    }
  }

  /** Every group's line appears in the breakdown section. */
  lemma StatusBreakdownMentions(groups: seq<StatusGroup>, k: int)
    requires 0 <= k < |groups|
    ensures Contains(StatusBreakdown(groups), BreakdownLine(groups[k]))
  {
    BreakdownLinesSpec(groups);
    JoinContains(BreakdownLines(groups), "\n", k);
  }

  // ----------------------------------------------------------- critical items

  /** The description of one critical deliverable: status, name, the priority when
      set and the stripped risk text, cut to `RISK_LIMIT` characters, when set. */
  function Describe(status: string, item: Deliverable): string {
    var priority := Get(item, "priority", "");
    var risks := Strip(Get(item, "risks_issues", ""));
    "- [" + status + "] " + Get(item, "deliverable", "Unknown")
      + (if priority != "" then " (Priority: " + priority + ")" else "")
      + (if risks != "" then "\n  Risk: " + Truncate(risks, RISK_LIMIT) else "")
  }

  /** The descriptions of the items of the critical groups, group by group. */
  function CriticalLines(groups: seq<StatusGroup>): seq<string> {
    if groups == [] then []
    else
      var last := groups[|groups| - 1];
      CriticalLines(groups[..|groups| - 1])
        + (if IsCritical(last.0) then Map((item: Deliverable) => Describe(last.0, item), last.1) else [])
  }

  /** The critical-items section, or a placeholder when no item is critical. */
  function CriticalItems(groups: seq<StatusGroup>): string {
    var lines := CriticalLines(groups);
    if lines == [] then NO_CRITICAL else Join(lines, "\n")
  }

  /** The descriptions of one critical group's items, in order. */
  method DescribeGroup(status: string, items: seq<Deliverable>) returns (lines: seq<string>)
    ensures lines == Map((item: Deliverable) => Describe(status, item), items)
  {
    var describe := (item: Deliverable) => Describe(status, item);
    lines := [];
    var j := 0;
    while j < |items|
      invariant 0 <= j <= |items|
      invariant lines == Map(describe, items[..j])
    {
      assert items[..j + 1][..j] == items[..j];
      lines := lines + [Describe(status, items[j])];
      j := j + 1;
    }
    assert items[..j] == items;
  }

  method ExtractCriticalItems(groups: seq<StatusGroup>) returns (r: string)
    ensures r == CriticalItems(groups)
  {
    var lines: seq<string> := [];
    var i := 0;
    while i < |groups|
      invariant 0 <= i <= |groups|
      invariant lines == CriticalLines(groups[..i])
    {
      assert groups[..i + 1][..i] == groups[..i];
      var (status, items) := groups[i];
      if IsCritical(status) {
        var more := DescribeGroup(status, items);
        lines := lines + more;
      }
      i := i + 1;
    }
    assert groups[..i] == groups;
    r := if lines == [] then NO_CRITICAL else Join(lines, "\n");
  }

  /** Exactly one line per deliverable of the critical groups. */
  lemma {:induction false} CriticalLinesCount(groups: seq<StatusGroup>)
    ensures |CriticalLines(groups)| == ItemCount(CriticalGroups(groups))
  {
    if groups != [] {
      var n := |groups| - 1;
      CriticalLinesCount(groups[..n]);
      if IsCritical(groups[n].0) {
        ItemCountAppend(CriticalGroups(groups[..n]), [groups[n]]);
        assert [groups[n]][..0] == [];
        assert ItemCount([groups[n]]) == |groups[n].1|;
        assert CriticalGroups(groups) == CriticalGroups(groups[..n]) + [groups[n]];
      } else {
        assert CriticalGroups(groups) == CriticalGroups(groups[..n]);
      }
    }
  }

  /** A description opens with its status in brackets. */
  lemma DescribeLabelled(status: string, item: Deliverable)
    ensures StartsWith(Describe(status, item), "- [" + status + "] ")
  {
  }

  /** Every critical line is labelled with one of the two critical statuses. */
  lemma {:induction false} CriticalLinesLabelled(groups: seq<StatusGroup>)
    ensures forall line :: line in CriticalLines(groups) ==>
      StartsWith(line, "- [" + OFF_TRACK + "] ") || StartsWith(line, "- [" + AT_RISK + "] ")
  {
    if groups != [] {
      var n := |groups| - 1;
      CriticalLinesLabelled(groups[..n]);
      var (status, items) := groups[n];
      if IsCritical(status) {
        var lines := Map((item: Deliverable) => Describe(status, item), items);
        forall line | line in lines
          ensures StartsWith(line, "- [" + status + "] ")
        {
          var k :| 0 <= k < |items| && lines[k] == line;
          DescribeLabelled(status, items[k]);
        }
      }
    }
  }

  // -------------------------------------------------------------------- risks

  /** An item contributes to the risk summary when its stripped risk text is set
      and is not one of the boilerplate phrases, in any letter case. */
  predicate Reportable(item: Deliverable) {
    var risks := Strip(Get(item, "risks_issues", ""));
    risks != "" && Lower(risks) !in BOILERPLATE
  }

  function RiskLine(item: Deliverable): string {
    "- " + Get(item, "deliverable", "Unknown") + ": " + Strip(Get(item, "risks_issues", ""))
  }

  /** The risk lines of the reportable items, in order, without de-duplication. */
  function RiskLines(items: seq<Deliverable>): seq<string> {
    Map(RiskLine, Filter(Reportable, items))
  }

  /** The risks section over every deliverable of every group, or a placeholder. */
  function RisksSummary(groups: seq<StatusGroup>): string {
    var lines := RiskLines(AllItems(groups));
    if lines == [] then NO_RISKS else Join(lines, "\n")
  }

  /** Adding one item adds its line when it is reportable. */
  lemma RiskLinesSnoc(items: seq<Deliverable>, item: Deliverable)
    ensures RiskLines(items + [item]) == RiskLines(items) + (if Reportable(item) then [RiskLine(item)] else [])
  {
    assert (items + [item])[..|items|] == items;
    var kept := if Reportable(item) then [item] else [];
    MapAppend(RiskLine, Filter(Reportable, items), kept);
  }

  /** The inner loop of the risk summary: the lines of one group's items. */
  method GroupRiskLines(items: seq<Deliverable>) returns (r: seq<string>)
    ensures r == RiskLines(items)
  {
    r := [];
    var j := 0;
    while j < |items|
      invariant 0 <= j <= |items|
      invariant r == RiskLines(items[..j])
    {
      assert items[..j + 1] == items[..j] + [items[j]];
      RiskLinesSnoc(items[..j], items[j]);
      if Reportable(items[j]) {
        r := r + [RiskLine(items[j])];
      }
      j := j + 1;
    }
    assert items[..j] == items;
  }

  method ExtractRisksSummary(groups: seq<StatusGroup>) returns (r: string)
    ensures r == RisksSummary(groups)
  {
    var lines: seq<string> := [];
    var i := 0;
    while i < |groups|
      invariant 0 <= i <= |groups|
      invariant lines == RiskLines(AllItems(groups[..i]))
    {
      assert groups[..i + 1][..i] == groups[..i];
      RiskLinesAppend(AllItems(groups[..i]), groups[i].1);
      var groupLines := GroupRiskLines(groups[i].1);
      lines := lines + groupLines;
      i := i + 1;
    }
    assert groups[..i] == groups;
    r := if lines == [] then NO_RISKS else Join(lines, "\n");
  }

  /** The risk lines of two runs of items are the lines of each, one after the
      other: no item's line depends on another item, and repeats are kept. */
  lemma RiskLinesAppend(a: seq<Deliverable>, b: seq<Deliverable>)
    ensures RiskLines(a + b) == RiskLines(a) + RiskLines(b)
  {
    FilterAppend(Reportable, a, b);
    MapAppend(RiskLine, Filter(Reportable, a), Filter(Reportable, b));
  }

  /** Every reportable item has its line, and every line is the line of a reportable item. */
  lemma RiskLinesSpec(items: seq<Deliverable>)
    ensures forall item :: item in items && Reportable(item) ==> RiskLine(item) in RiskLines(items)
    ensures forall line :: line in RiskLines(items) ==>
      exists item :: item in items && Reportable(item) && line == RiskLine(item)
  {
    var kept := Filter(Reportable, items);
    forall item | item in items && Reportable(item) ensures RiskLine(item) in RiskLines(items) {
      FilterKeeps(Reportable, items, item);
      var k :| 0 <= k < |kept| && kept[k] == item;
      assert RiskLines(items)[k] == RiskLine(item);
    }
    forall line | line in RiskLines(items)
      ensures exists item :: item in items && Reportable(item) && line == RiskLine(item)
    {
      var k :| 0 <= k < |kept| && RiskLines(items)[k] == line;
      assert kept[k] in kept;
    }
  }

  // ------------------------------------------------------------------- prompt

  const TASK := "## Task\nGenerate a concise executive summary (2-3 sentences) that:\n\n"
    + "1. **States overall program health** - Is the program on track, at risk, or facing major issues?\n"
    + "2. **Highlights the most critical item** - What single issue requires immediate attention?\n"
    + "3. **Identifies any emerging patterns** - Are there themes across multiple deliverables (e.g., resource constraints, dependency delays)?\n\n"
    + "## Guidelines\n- Be specific and decision-oriented (not generic)\n- Focus on actionable insights, not just facts\n"
    + "- Use concrete examples from the data\n- Avoid phrases like \"the report shows\" or \"according to the data\"\n"
    + "- Write in present tense, as if briefing an executive right now\n\n"
    + "## Output Format\nReturn ONLY the executive summary text (2-3 sentences). No preamble, explanation, or formatting."

  const OPENING := "You are analyzing a weekly program status report for a technical program manager.\n\n"
    + "## Report Metadata\n- Report Date: "

  /** The prompt's middle: its five variable parts between their headings. */
  function PromptParts(reportDate: string, total: string, breakdown: string, critical: string, risks: string): seq<string> {
    [reportDate, "\n- Total Deliverables: ", total,
     "\n\n## Status Breakdown\n", breakdown,
     "\n\n## Critical Items (Off Track / At Risk)\n", critical,
     "\n\n## Reported Risks and Issues\n", risks]
  }

  /** The prompt's middle for a context; a missing date reads "Unknown", a
      missing total 0 and missing groups count as none. */
  function PartsOf(ctx: Context): seq<string> {
    var groups := ctx.statusGroups.GetOr([]);
    PromptParts(ctx.reportDate.GetOr("Unknown"), IntToString(ctx.totalDeliverables.GetOr(0)),
      StatusBreakdown(groups), CriticalItems(groups), RisksSummary(groups))
  }

  /** The fixed text before and after the prompt's middle. */
  datatype Frame = Frame(opening: string, closing: string)

  const FRAME := Frame(OPENING, "\n\n" + TASK)

  /** A prompt for a context inside a frame. */
  function Framed(frame: Frame, ctx: Context): string {
    frame.opening + Join(PartsOf(ctx), "") + frame.closing
  }

  /** The prompt for a context: the opening, the middle and the task. */
  function Prompt(ctx: Context): string {
    Framed(FRAME, ctx)
  }

  method BuildPrompt(ctx: Context) returns (prompt: string)
    ensures prompt == Prompt(ctx)
  {
    var groups := ctx.statusGroups.GetOr([]);
    var breakdown := FormatStatusBreakdown(groups);
    var critical := ExtractCriticalItems(groups);
    var risks := ExtractRisksSummary(groups);
    var parts := PromptParts(ctx.reportDate.GetOr("Unknown"), IntToString(ctx.totalDeliverables.GetOr(0)),
      breakdown, critical, risks);
    assert parts == PartsOf(ctx);
    prompt := FRAME.opening + Join(parts, "") + FRAME.closing;
  }

  /** Each part of the middle occurs in the framed prompt. */
  lemma PartCarried(frame: Frame, parts: seq<string>, k: int)
    requires 0 <= k < |parts|
    ensures Contains(frame.opening + Join(parts, "") + frame.closing, parts[k])
  {
    JoinContains(parts, "", k);
    ContainsExtend(frame.opening, Join(parts, ""), frame.closing, parts[k]);
  }

  /** Each of the five variable parts occurs in the framed prompt. */
  lemma MiddleCarried(frame: Frame, reportDate: string, total: string, breakdown: string, critical: string, risks: string)
    ensures var prompt := frame.opening + Join(PromptParts(reportDate, total, breakdown, critical, risks), "") + frame.closing;
      Contains(prompt, reportDate) && Contains(prompt, total) && Contains(prompt, breakdown) &&
      Contains(prompt, critical) && Contains(prompt, risks)
  {
    var parts := PromptParts(reportDate, total, breakdown, critical, risks);
    PartCarried(frame, parts, 0);
    PartCarried(frame, parts, 2);
    PartCarried(frame, parts, 4);
    PartCarried(frame, parts, 6);
    PartCarried(frame, parts, 8);
  }

  /** Whatever its fixed text, the prompt carries the report date ("Unknown"
      when the context has none) and the total in decimal. */
  lemma PromptCarriesMetadata(frame: Frame, ctx: Context)
    ensures Contains(Framed(frame, ctx), ctx.reportDate.GetOr("Unknown"))
    ensures Contains(Framed(frame, ctx), IntToString(ctx.totalDeliverables.GetOr(0)))
  {
    var groups := ctx.statusGroups.GetOr([]);
    MiddleCarried(frame, ctx.reportDate.GetOr("Unknown"), IntToString(ctx.totalDeliverables.GetOr(0)),
      StatusBreakdown(groups), CriticalItems(groups), RisksSummary(groups));
  }

  /** Whatever its fixed text, the prompt carries all three sections built
      from the status groups. */
  lemma PromptCarries(frame: Frame, ctx: Context)
    ensures var groups := ctx.statusGroups.GetOr([]);
      Contains(Framed(frame, ctx), StatusBreakdown(groups)) &&
      Contains(Framed(frame, ctx), CriticalItems(groups)) &&
      Contains(Framed(frame, ctx), RisksSummary(groups))
  {
    var groups := ctx.statusGroups.GetOr([]);
    MiddleCarried(frame, ctx.reportDate.GetOr("Unknown"), IntToString(ctx.totalDeliverables.GetOr(0)),
      StatusBreakdown(groups), CriticalItems(groups), RisksSummary(groups));
  }

  // ----------------------------------------------------------------- response

  /** What the model's reply becomes: the summary and its length and sentence count. */
  datatype SummaryResult = SummaryResult(summary: string, length: nat, sentenceCount: nat)

  /** Applies the preamble removals in order: each cuts its preamble off the front
      of the current text, when the text starts with it, and strips the rest. */
  function DropPreambles(s: string, preambles: seq<string>): string {
    if preambles == [] then s
    else
      var before := DropPreambles(s, preambles[..|preambles| - 1]);
      var p := preambles[|preambles| - 1];
      if StartsWith(before, p) then Strip(before[|p|..]) else before
  }

  /** `.`, `!` and `?` each end a sentence. */
  function SentenceCount(s: string): nat {
    CountChar(s, '.') + CountChar(s, '!') + CountChar(s, '?')
  }

  function Summarize(response: string): SummaryResult {
    var summary := DropPreambles(Strip(response), PREAMBLES);
    SummaryResult(summary, |summary|, SentenceCount(summary))
  }

  method ParseResponse(response: string) returns (r: SummaryResult)
    ensures r == Summarize(response)
  {
    var summary := Strip(response);
    var i := 0;
    while i < |PREAMBLES|
      invariant 0 <= i <= |PREAMBLES|
      invariant summary == DropPreambles(Strip(response), PREAMBLES[..i])
    {
      assert PREAMBLES[..i + 1][..i] == PREAMBLES[..i];
      var preamble := PREAMBLES[i];
      if StartsWith(summary, preamble) {
        summary := Strip(summary[|preamble|..]);
      }
      i := i + 1;
    }
    assert PREAMBLES[..i] == PREAMBLES;
    r := SummaryResult(summary, |summary|, SentenceCount(summary));
  }

  predicate Stripped(s: string) {
    s == [] || (!IsSpace(s[0]) && !IsSpace(s[|s| - 1]))
  }

  /** Dropping preambles from stripped text leaves stripped text no longer than it. */
  lemma {:induction false} DropPreamblesStripped(s: string, preambles: seq<string>)
    requires Stripped(s)
    ensures Stripped(DropPreambles(s, preambles)) && |DropPreambles(s, preambles)| <= |s|
  {
    if preambles != [] {
      var n := |preambles| - 1;
      DropPreamblesStripped(s, preambles[..n]);
      var before := DropPreambles(s, preambles[..n]);
      if StartsWith(before, preambles[n]) {
        StripSpec(before[|preambles[n]|..]);
      }
    }
  }

  /** The sentence count is the number of positions holding `.`, `!` or `?`. */
  lemma {:induction false} SentenceCountIsPositions(s: string)
    ensures SentenceCount(s) == |set k | 0 <= k < |s| && s[k] in ".!?"|
  {
    if s != [] {
      var n := |s| - 1;
      SentenceCountIsPositions(s[..n]);
      var before := set k | 0 <= k < n && s[..n][k] in ".!?";
      var all := set k | 0 <= k < |s| && s[k] in ".!?";
      if s[n] in ".!?" {
        assert all == before + {n};
      } else {
        assert all == before;
      }
    }
  }

  /** The parsed summary has no surrounding whitespace and is no longer than
      the reply, and its metadata are its length and its count of
      sentence-ending marks. */
  lemma SummarizeSpec(response: string)
    ensures var r := Summarize(response);
      Stripped(r.summary) && |r.summary| <= |response| && r.length == |r.summary| &&
      r.sentenceCount == |set k | 0 <= k < |r.summary| && r.summary[k] in ".!?"|
  {
    StripSpec(response);
    DropPreamblesStripped(Strip(response), PREAMBLES);
    SentenceCountIsPositions(Summarize(response).summary);
  }
}
