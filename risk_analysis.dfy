/** The risk-analysis prompt: the reported risks of every deliverable, the
    prompt built from them (or none when there are none), and the parser
    that back-fills the three result arrays. */
module RiskAnalysis {
  import opened Wrappers
  import opened Text
  import opened Seqs
  import opened JsonValues
  import opened Report
  import ExecutiveSummary

  /** Risk texts that are skipped, compared in lower case. */
  const SKIPPED := ["no risks or issues reported this week", "none", "n/a", ""]

  /** The keys the parsed analysis always carries. */
  const ARRAY_KEYS := ["themes", "critical_risks", "anomalies"]

  /** One extracted risk. */
  datatype RiskEntry = RiskEntry(deliverable: string, status: string, risk: string)

  /** An item has a risk when its stripped risk text is set and is not skipped. */
  predicate HasRisk(item: Deliverable) {
    var text := Strip(Get(item, "risks_issues", ""));
    text != "" && Lower(text) !in SKIPPED
  }

  function Entry(status: string, item: Deliverable): RiskEntry {
    RiskEntry(Get(item, "deliverable", "Unknown"), status, Strip(Get(item, "risks_issues", "")))
  }

  function GroupEntries(status: string, items: seq<Deliverable>): seq<RiskEntry> {
    Map((item: Deliverable) => Entry(status, item), Filter(HasRisk, items))
  }

  /** The risks of all groups, group by group and item by item. */
  function Entries(groups: seq<StatusGroup>): seq<RiskEntry> {
    if groups == [] then []
    else
      var last := groups[|groups| - 1];
      Entries(groups[..|groups| - 1]) + GroupEntries(last.0, last.1)
  }

  lemma GroupEntriesSnoc(status: string, items: seq<Deliverable>, item: Deliverable)
    ensures GroupEntries(status, items + [item])
      == GroupEntries(status, items) + (if HasRisk(item) then [Entry(status, item)] else [])
  {
    assert (items + [item])[..|items|] == items;
    var kept := if HasRisk(item) then [item] else [];
    MapAppend((i: Deliverable) => Entry(status, i), Filter(HasRisk, items), kept);
  }

  /** The inner loop of `extract_risks`: the risks of one group. */
  method GroupRisks(status: string, items: seq<Deliverable>) returns (r: seq<RiskEntry>)
    ensures r == GroupEntries(status, items)
  {
    r := [];
    var j := 0;
    while j < |items|
      invariant 0 <= j <= |items|
      invariant r == GroupEntries(status, items[..j])
    {
      assert items[..j + 1] == items[..j] + [items[j]];
      GroupEntriesSnoc(status, items[..j], items[j]);
      if HasRisk(items[j]) {
        r := r + [Entry(status, items[j])];
      }
      j := j + 1;
    }
    assert items[..j] == items;
  }

  method ExtractRisks(groups: seq<StatusGroup>) returns (risks: seq<RiskEntry>)
    ensures risks == Entries(groups)
  {
    risks := [];
    var i := 0;
    while i < |groups|
      invariant 0 <= i <= |groups|
      invariant risks == Entries(groups[..i])
    {
      assert groups[..i + 1][..i] == groups[..i];
      var groupRisks := GroupRisks(groups[i].0, groups[i].1);
      risks := risks + groupRisks;
      i := i + 1;
    }
    assert groups[..i] == groups;
  }

  /** The extra empty phrase in the skip list changes nothing: an item has a risk
      here exactly when the executive summary reports it. */
  lemma HasRiskIsReportable(item: Deliverable)
    ensures HasRisk(item) == ExecutiveSummary.Reportable(item)
  {
    var text := Strip(Get(item, "risks_issues", ""));
    if text != "" {
      assert Lower(text) != "";
    }
  }

  /** One group's entries never outnumber its items. */
  lemma GroupEntriesBound(status: string, items: seq<Deliverable>)
    ensures |GroupEntries(status, items)| <= |items|
  {
  }

  /** There are never more risks than items. */
  lemma {:induction false} EntriesBound(groups: seq<StatusGroup>)
    ensures |Entries(groups)| <= ItemCount(groups)
  {
    if groups != [] {
      var n := |groups| - 1;
      EntriesBound(groups[..n]);
    }
  }

  /** There are as many entries as risky items across all groups. */
  lemma {:induction false} EntriesCount(groups: seq<StatusGroup>)
    ensures |Entries(groups)| == |Filter(HasRisk, AllItems(groups))|
  {
    if groups != [] {
      var n := |groups| - 1;
      EntriesCount(groups[..n]);
      FilterAppend(HasRisk, AllItems(groups[..n]), groups[n].1);
    }
  }

  /** `e` is the entry of a risky item of group `g`. */
  predicate EntryOf(g: StatusGroup, e: RiskEntry) {
    exists item :: item in g.1 && HasRisk(item) && e == Entry(g.0, item)
  }

  /** Every entry is the entry of a risky item of some group, labelled with that
      group's status. */
  lemma {:induction false} EntriesSound(groups: seq<StatusGroup>)
    ensures forall e :: e in Entries(groups) ==> exists k :: 0 <= k < |groups| && EntryOf(groups[k], e)
  {
    if groups != [] {
      var n := |groups| - 1;
      EntriesSound(groups[..n]);
      forall e | e in Entries(groups) ensures exists k :: 0 <= k < |groups| && EntryOf(groups[k], e) {
        if e in Entries(groups[..n]) {
          var k :| 0 <= k < n && EntryOf(groups[..n][k], e);
          assert groups[..n][k] == groups[k];
        } else {
          var entries := GroupEntries(groups[n].0, groups[n].1);
          assert e in entries;
          var kept := Filter(HasRisk, groups[n].1);
          var j :| 0 <= j < |entries| && entries[j] == e;
          assert kept[j] in kept;
          assert EntryOf(groups[n], e);
        }
      }
    }
  }

  /** Every risky item of every group has its entry, with the group's status. */
  lemma {:induction false} EntriesComplete(groups: seq<StatusGroup>, k: int, item: Deliverable)
    requires 0 <= k < |groups| && item in groups[k].1 && HasRisk(item)
    ensures Entry(groups[k].0, item) in Entries(groups)
  {
    var n := |groups| - 1;
    if k < n {
      assert groups[..n][k] == groups[k];
      EntriesComplete(groups[..n], k, item);
    } else {
      FilterKeeps(HasRisk, groups[n].1, item);
      var kept := Filter(HasRisk, groups[n].1);
      var j :| 0 <= j < |kept| && kept[j] == item;
      assert GroupEntries(groups[n].0, groups[n].1)[j] == Entry(groups[n].0, item);
    }
  }

  /** The risk texts: a heading, the risk and an empty line per entry. */
  function BlockLines(risks: seq<RiskEntry>): seq<string> {
    if risks == [] then []
    else
      var r := risks[|risks| - 1];
      BlockLines(risks[..|risks| - 1]) + ["**" + r.deliverable + "** (" + r.status + ")", "Risk: " + r.risk, ""]
  }

  function RisksText(risks: seq<RiskEntry>): string {
    Join(BlockLines(risks), "\n")
  }

  method FormatRisks(risks: seq<RiskEntry>) returns (text: string)
    ensures text == RisksText(risks)
  {
    var lines: seq<string> := [];
    var i := 0;
    while i < |risks|
      invariant 0 <= i <= |risks|
      invariant lines == BlockLines(risks[..i])
    {
      assert risks[..i + 1][..i] == risks[..i];
      var r := risks[i];
      lines := lines + ["**" + r.deliverable + "** (" + r.status + ")"];
      lines := lines + ["Risk: " + r.risk];
      lines := lines + [""];
      i := i + 1;
    }
    assert risks[..i] == risks;
    text := Join(lines, "\n");
  }

  /** Exactly three lines per risk: its heading, its text and a blank line. */
  lemma {:induction false} BlockLinesSpec(risks: seq<RiskEntry>)
    ensures |BlockLines(risks)| == 3 * |risks|
    ensures forall i :: 0 <= i < |risks| ==>
      BlockLines(risks)[3 * i] == "**" + risks[i].deliverable + "** (" + risks[i].status + ")" &&
      BlockLines(risks)[3 * i + 1] == "Risk: " + risks[i].risk &&
      BlockLines(risks)[3 * i + 2] == ""
  {
    if risks != [] {
      var n := |risks| - 1;
      BlockLinesSpec(risks[..n]);
    }
  }

  const HEAD := "You are analyzing risks and issues from a weekly program status report.\n\n"
    + "## All Reported Risks and Issues\n\n"

  const TAIL := "\n\n## Task\n\nAnalyze these risks and provide:\n\n"
    + "1. **Cross-Cutting Themes** (2-4 themes max)\n"
    + "   - Identify patterns that appear across multiple deliverables\n"
    + "   - Examples: \"resource constraints\", \"dependency delays\", \"unclear requirements\"\n"
    + "   - Only report themes that appear in 2+ deliverables\n\n"
    + "2. **Severity Assessment**\n   - Which risks are most critical?\n   - Which require immediate action?\n\n"
    + "3. **Anomalies** (if any)\n   - Deliverables with vague/unclear risk descriptions\n"
    + "   - Risks that seem mismatched with status (e.g., \"On Track\" with major risks)\n"
    + "   - Missing risk information where expected\n\n"
    + "## Output Format\n\nReturn ONLY valid JSON with this structure:\n"
    + "{\n  \"themes\": [\n    {\n      \"name\": \"Theme name (2-4 words)\",\n"
    + "      \"description\": \"Brief explanation (1 sentence)\",\n"
    + "      \"affected_deliverables\": [\"Deliverable 1\", \"Deliverable 2\"],\n"
    + "      \"severity\": \"high|medium|low\"\n    }\n  ],\n"
    + "  \"critical_risks\": [\n    {\n      \"deliverable\": \"Deliverable name\",\n"
    + "      \"risk\": \"Risk description\",\n      \"reason\": \"Why this is critical\"\n    }\n  ],\n"
    + "  \"anomalies\": [\n    {\n      \"deliverable\": \"Deliverable name\",\n"
    + "      \"issue\": \"Description of anomaly\"\n    }\n  ]\n}\n\n"
    + "If no themes/anomalies found, use empty arrays. Be concise and specific."

  /** The prompt, or `None` when no item has a risk to analyse. */
  function Prompt(ctx: Context): Option<string> {
    var risks := Entries(ctx.statusGroups.GetOr([]));
    if risks == [] then None else Some(Join([HEAD, RisksText(risks), TAIL], ""))
  }

  method BuildPrompt(ctx: Context) returns (prompt: Option<string>)
    ensures prompt == Prompt(ctx)
  {
    var risks := ExtractRisks(ctx.statusGroups.GetOr([]));
    if risks == [] {
      return None;
    }
    var text := FormatRisks(risks);
    prompt := Some(Join([HEAD, text, TAIL], ""));
  }

  /** There is no prompt exactly when no item of any group has a risk; a missing
      group list counts as no groups. */
  lemma PromptNone(ctx: Context)
    ensures Prompt(ctx).None? <==>
      forall item :: item in AllItems(ctx.statusGroups.GetOr([])) ==> !HasRisk(item)
  {
    var groups := ctx.statusGroups.GetOr([]);
    EntriesCount(groups);
    forall item | item in AllItems(groups) && HasRisk(item) ensures Prompt(ctx).Some? {
      FilterKeeps(HasRisk, AllItems(groups), item);
    }
    if Prompt(ctx).Some? {
      var kept := Filter(HasRisk, AllItems(groups));
      assert kept[0] in kept;
    }
  }

  /** The risk text names every risk: its heading and its text. */
  lemma RisksTextMentions(risks: seq<RiskEntry>, i: int)
    requires 0 <= i < |risks|
    ensures Contains(RisksText(risks), "**" + risks[i].deliverable + "** (" + risks[i].status + ")")
    ensures Contains(RisksText(risks), "Risk: " + risks[i].risk)
  {
    BlockLinesSpec(risks);
    JoinContains(BlockLines(risks), "\n", 3 * i);
    JoinContains(BlockLines(risks), "\n", 3 * i + 1);
  }

  /** A prompt names every extracted risk: its heading and its text. */
  lemma PromptMentions(ctx: Context, i: int)
    requires Prompt(ctx).Some? && 0 <= i < |Entries(ctx.statusGroups.GetOr([]))|
    ensures var r := Entries(ctx.statusGroups.GetOr([]))[i];
      Contains(Prompt(ctx).value, "**" + r.deliverable + "** (" + r.status + ")") &&
      Contains(Prompt(ctx).value, "Risk: " + r.risk)
  {
    var risks := Entries(ctx.statusGroups.GetOr([]));
    var text := RisksText(risks);
    var p := Join([HEAD, text, TAIL], "");
    assert Prompt(ctx).value == p;
    RisksTextMentions(risks, i);
    JoinContains([HEAD, text, TAIL], "", 1);
    ContainsTransitive(p, text, "**" + risks[i].deliverable + "** (" + risks[i].status + ")");
    ContainsTransitive(p, text, "Risk: " + risks[i].risk);
  }

  // ----------------------------------------------------------------- response

  /** What an undecodable reply becomes: empty arrays and the decoder's message. */
  function Fallback(message: string): Json {
    JObj(map["themes" := JArr([]), "critical_risks" := JArr([]), "anomalies" := JArr([]),
             "parse_error" := JStr(message)])
  }

  /** `if key not in data: data[key] = []` on a decoded value. */
  function FillKey(r: Result<Json>, key: string): Result<Json> {
    if r.Err? then r
    else
      var data := r.value;
      match PyContains(data, key)
      case None => Err(NotIterable(data))
      case Some(present) =>
        if present then r
        else if data.JObj? then Ok(JObj(data.fields[key := JArr([])]))
        else Err(NoItemAssignment(data))
  }

  /** The parsed analysis: the decoded reply with the three arrays back-filled, or
      the fallback when the reply does not decode. */
  function ParseResponse(response: string, decode: string -> Decoded): Result<Json> {
    match decode(Strip(response))
    case Malformed(message) => Ok(Fallback(message))
    case Parsed(data) => FillKey(FillKey(FillKey(Ok(data), ARRAY_KEYS[0]), ARRAY_KEYS[1]), ARRAY_KEYS[2])
  }

  /** An undecodable reply does not raise: it yields three empty arrays and the error. */
  lemma ParseMalformed(response: string, decode: string -> Decoded)
    requires decode(Strip(response)).Malformed?
    ensures var r := ParseResponse(response, decode);
      r.Ok? && r.value.JObj? &&
      (forall key :: key in ARRAY_KEYS ==> key in r.value.fields && r.value.fields[key] == JArr([])) &&
      "parse_error" in r.value.fields &&
      r.value.fields["parse_error"] == JStr(decode(Strip(response)).message)
  {
  }

  /** A decoded object does not raise: the three arrays are added where missing,
      every key it had keeps its value, and no other key appears. */
  lemma ParseObject(response: string, decode: string -> Decoded)
    requires decode(Strip(response)).Parsed? && decode(Strip(response)).value.JObj?
    ensures var fields := decode(Strip(response)).value.fields;
      var r := ParseResponse(response, decode);
      r.Ok? && r.value.JObj? &&
      r.value.fields.Keys == fields.Keys + set key | key in ARRAY_KEYS &&
      (forall key :: key in fields ==> r.value.fields[key] == fields[key]) &&
      (forall key :: key in ARRAY_KEYS && key !in fields ==> r.value.fields[key] == JArr([]))
  {
  }

  /** A decoded scalar raises the `TypeError` of the first membership test. */
  lemma ParseScalar(response: string, decode: string -> Decoded)
    requires decode(Strip(response)).Parsed?
    requires var data := decode(Strip(response)).value; !(data.JObj? || data.JArr? || data.JStr?)
    ensures ParseResponse(response, decode) == Err(NotIterable(decode(Strip(response)).value))
  {
  }

  /** A decoded list or string is returned as it is when it already contains the
      three keys, and raises a `TypeError` otherwise. */
  lemma ParseSequence(response: string, decode: string -> Decoded)
    requires decode(Strip(response)).Parsed?
    requires var data := decode(Strip(response)).value; data.JArr? || data.JStr?
    ensures var data := decode(Strip(response)).value;
      var r := ParseResponse(response, decode);
      (r == Ok(data) <==> forall key :: key in ARRAY_KEYS ==> PyContains(data, key) == Some(true)) &&
      (r.Err? ==> r.error == NoItemAssignment(data))
  {
  }
}
