/** The action-items prompt: a numbered block per critical deliverable (or no
    prompt at all), and the parser that unwraps a fenced reply and validates
    the decoded actions in a fixed order, raising at the first problem. */
module ActionItems {
  import opened Wrappers
  import opened Text
  import opened Seqs
  import opened JsonValues
  import opened Report

  /** A critical deliverable as the prompt shows it. */
  datatype CriticalDeliverable = CriticalDeliverable(name: string, status: string, lead: string, risks: string, nextSteps: string)

  predicate IsCriticalDeliverable(d: Deliverable) {
    IsCritical(Get(d, "status", ""))
  }

  /** The prompt's view of a deliverable, with its defaults for missing fields. */
  function Info(d: Deliverable): CriticalDeliverable {
    CriticalDeliverable(Get(d, "deliverable", "Unknown"), Get(d, "status", ""), Get(d, "lead", "Unassigned"),
      Get(d, "risks_issues", "None"), Get(d, "next_steps", "None"))
  }

  /** The critical deliverables, in input order; a missing list counts as empty. */
  function Criticals(ctx: Context): seq<CriticalDeliverable> {
    Map(Info, Filter(IsCriticalDeliverable, ctx.deliverables.GetOr([])))
  }

  function Heading(idx: int, c: CriticalDeliverable): string {
    "### " + IntToString(idx) + ". " + c.name + " (" + c.status + ")"
  }

  /** The five lines of the block numbered `idx`. */
  function Block(idx: int, c: CriticalDeliverable): seq<string> {
    [Heading(idx, c), "**Lead:** " + c.lead, "**Risks/Issues:** " + c.risks,
     "**Planned Next Steps:** " + c.nextSteps, ""]
  }

  /** The blocks of the critical deliverables, numbered from 1. */
  function Blocks(cs: seq<CriticalDeliverable>): seq<string> {
    if cs == [] then []
    else Blocks(cs[..|cs| - 1]) + Block(|cs|, cs[|cs| - 1])
  }

  function BreakdownLine(group: StatusGroup): string {
    "  - " + group.0 + ": " + IntToString(|group.1|) + " items"
  }

  /** The status breakdown, present only when the context has status groups. */
  function Breakdown(groups: Option<seq<StatusGroup>>): seq<string> {
    if groups.None? then [] else ["\nStatus breakdown:"] + Map(BreakdownLine, groups.value)
  }

  const OPENING := ["You are an AI Chief of Staff helping a program manager identify concrete next steps.", "",
    "## Program Status Overview"]

  const CRITICAL_HEADING := ["", "## Critical Deliverables Requiring Attention", ""]

  const TASK := ["## Task", "",
    "Generate 3-5 concrete, actionable recommendations for the program manager.",
    "Each action should:",
    "1. Be specific and implementable (not vague like 'monitor situation')",
    "2. Include who should do it (use existing leads or suggest 'Program Manager')",
    "3. Address the most critical risks/blockers",
    "4. Have a clear success criterion", "",
    "Also assign a confidence level (high/medium/low) based on:",
    "- **High**: Action is clearly needed and has obvious next steps",
    "- **Medium**: Action is likely helpful but may need refinement",
    "- **Low**: Action is speculative or requires more investigation", "",
    "## Output Format", "",
    "Return ONLY valid JSON with this structure:",
    "```json", "{", "  \"actions\": [", "    {",
    "      \"title\": \"Short action title (5-10 words)\",",
    "      \"description\": \"Detailed description of what needs to be done\",",
    "      \"owner\": \"Who should do this (lead name or role)\",",
    "      \"success_criterion\": \"How to know when this is complete\",",
    "      \"confidence\": \"high|medium|low\",",
    "      \"related_deliverables\": [\"Deliverable Name 1\", \"Deliverable Name 2\"]",
    "    }", "  ]", "}", "```", "",
    "Focus on the highest-impact actions first."]

  /** The total as the prompt shows it, "Unknown" when the context has none. */
  function TotalText(ctx: Context): string {
    match ctx.totalDeliverables
    case Some(n) => IntToString(n)
    case None => "Unknown"
  }

  /** The lines before the blocks. */
  function Preamble(ctx: Context): seq<string> {
    OPENING + ["Total deliverables: " + TotalText(ctx)] + Breakdown(ctx.statusGroups) + CRITICAL_HEADING
  }

  /** The prompt, or `None` when no deliverable is critical. */
  function Prompt(ctx: Context): Option<string> {
    var cs := Criticals(ctx);
    if cs == [] then None else Some(Join(Preamble(ctx) + Blocks(cs) + TASK, "\n"))
  }

  method CollectCriticals(ds: seq<Deliverable>) returns (critical: seq<CriticalDeliverable>)
    ensures critical == Map(Info, Filter(IsCriticalDeliverable, ds))
  {
    critical := [];
    var i := 0;
    while i < |ds|
      invariant 0 <= i <= |ds|
      invariant critical == Map(Info, Filter(IsCriticalDeliverable, ds[..i]))
    {
      assert ds[..i + 1][..i] == ds[..i];
      var kept := if IsCriticalDeliverable(ds[i]) then [ds[i]] else [];
      MapAppend(Info, Filter(IsCriticalDeliverable, ds[..i]), kept);
      if IsCriticalDeliverable(ds[i]) {
        critical := critical + [Info(ds[i])];
      }
      i := i + 1;
    }
    assert ds[..i] == ds;
  }

  method FormatBreakdown(groups: seq<StatusGroup>) returns (lines: seq<string>)
    ensures lines == Breakdown(Some(groups))
  {
    lines := ["\nStatus breakdown:"];
    var i := 0;
    while i < |groups|
      invariant 0 <= i <= |groups|
      invariant lines == ["\nStatus breakdown:"] + Map(BreakdownLine, groups[..i])
    {
      assert groups[..i + 1][..i] == groups[..i];
      lines := lines + [BreakdownLine(groups[i])];
      i := i + 1;
    }
    assert groups[..i] == groups;
  }

  method FormatBlocks(critical: seq<CriticalDeliverable>) returns (lines: seq<string>)
    ensures lines == Blocks(critical)
  {
    lines := [];
    var idx := 0;
    while idx < |critical|
      invariant 0 <= idx <= |critical|
      invariant lines == Blocks(critical[..idx])
    {
      assert critical[..idx + 1][..idx] == critical[..idx];
      lines := lines + Block(idx + 1, critical[idx]);
      idx := idx + 1;
    }
    assert critical[..idx] == critical;
  }

  method BuildPrompt(ctx: Context) returns (prompt: Option<string>)
    ensures prompt == Prompt(ctx)
  {
    var critical: seq<CriticalDeliverable> := [];
    if ctx.deliverables.Some? {
      critical := CollectCriticals(ctx.deliverables.value);
    }
    assert critical == Criticals(ctx);
    if critical == [] {
      return None;
    }
    var parts := OPENING + ["Total deliverables: " + TotalText(ctx)];
    if ctx.statusGroups.Some? {
      var breakdown := FormatBreakdown(ctx.statusGroups.value);
      parts := parts + breakdown;
    }
    parts := parts + CRITICAL_HEADING;
    assert parts == Preamble(ctx);
    var blocks := FormatBlocks(critical);
    parts := parts + blocks + TASK;
    prompt := Some(Join(parts, "\n"));
  }

  /** There is no prompt exactly when no deliverable has a critical status,
      including when the context has no deliverables. */
  lemma PromptNone(ctx: Context)
    ensures Prompt(ctx).None? <==>
      forall d :: d in ctx.deliverables.GetOr([]) ==> !IsCritical(Get(d, "status", ""))
  {
    var ds := ctx.deliverables.GetOr([]);
    forall d | d in ds && IsCritical(Get(d, "status", "")) ensures Prompt(ctx).Some? {
      FilterKeeps(IsCriticalDeliverable, ds, d);
    }
    if Prompt(ctx).Some? {
      var kept := Filter(IsCriticalDeliverable, ds);
      assert kept[0] in kept;
    }
  }

  /** Exactly the Off Track and At Risk deliverables get a block: each such
      deliverable of the input is shown, every block shows one of them, and
      the blocks follow the input order, with the defaults for missing fields. */
  lemma CriticalsSpec(ctx: Context)
    ensures forall c :: c in Criticals(ctx) ==> IsCritical(c.status)
    ensures forall d :: d in ctx.deliverables.GetOr([]) && IsCritical(Get(d, "status", "")) ==> Info(d) in Criticals(ctx)
    ensures forall c :: c in Criticals(ctx) ==>
      exists d :: d in ctx.deliverables.GetOr([]) && IsCritical(Get(d, "status", "")) && c == Info(d)
    ensures var kept := Filter(IsCriticalDeliverable, ctx.deliverables.GetOr([]));
      |Criticals(ctx)| == |kept| && forall i :: 0 <= i < |kept| ==> Criticals(ctx)[i] == Info(kept[i])
  {
    var ds := ctx.deliverables.GetOr([]);
    var cs := Criticals(ctx);
    var kept := Filter(IsCriticalDeliverable, ds);
    forall c | c in cs ensures IsCritical(c.status) && exists d :: d in ds && IsCritical(Get(d, "status", "")) && c == Info(d) {
      var i :| 0 <= i < |cs| && cs[i] == c;
      assert kept[i] in kept;
    }
    forall d | d in ds && IsCritical(Get(d, "status", "")) ensures Info(d) in cs {
      FilterKeeps(IsCriticalDeliverable, ds, d);
      var i :| 0 <= i < |kept| && kept[i] == d;
      assert cs[i] == Info(d);
    }
  }

  /** Five lines per critical deliverable, the first its numbered heading. */
  lemma {:induction false} BlocksSpec(cs: seq<CriticalDeliverable>)
    ensures |Blocks(cs)| == 5 * |cs|
    ensures forall i :: 0 <= i < |cs| ==> Blocks(cs)[5 * i] == Heading(i + 1, cs[i])
  {
    if cs != [] {
      BlocksSpec(cs[..|cs| - 1]);
    }
  }

  /** The prompt heads the block of the `i`-th critical deliverable with the number `i + 1`. */
  lemma PromptNumbers(ctx: Context, i: int)
    requires Prompt(ctx).Some? && 0 <= i < |Criticals(ctx)|
    ensures Contains(Prompt(ctx).value, Heading(i + 1, Criticals(ctx)[i]))
  {
    var cs := Criticals(ctx);
    var parts := Preamble(ctx) + Blocks(cs) + TASK;
    BlocksSpec(cs);
    assert parts[|Preamble(ctx)| + 5 * i] == Heading(i + 1, cs[i]);
    JoinContains(parts, "\n", |Preamble(ctx)| + 5 * i);
  }

  // ----------------------------------------------------------------- response

  /** The fields every action must have, checked in this order. */
  const REQUIRED := ["title", "description", "owner", "success_criterion", "confidence"]

  const CONFIDENCE := [JStr("high"), JStr("medium"), JStr("low")]

  /** The validated reply: the decoded action list and its length. */
  datatype Actions = Actions(actions: seq<Json>, count: nat)

  /** The reply stripped and, when it opens with a code fence, without its first
      line and without its last line when that line strips to a fence. */
  function Unfence(response: string): string {
    var r := Strip(response);
    if !StartsWith(r, "```") then r
    else
      var lines := Split(r, '\n')[1..];
      var body := if lines != [] && Strip(lines[|lines| - 1]) == "```" then lines[..|lines| - 1] else lines;
      Join(body, "\n")
  }

  function MissingField(idx: int, field: string): Failure {
    ValueError("Action " + IntToString(idx) + " missing required field: " + field)
  }

  /** The first failing field test on an action, in the order of `fields`. */
  function FieldCheck(idx: int, action: Json, fields: seq<string>): Option<Failure> {
    if fields == [] then None
    else
      var before := FieldCheck(idx, action, fields[..|fields| - 1]);
      var field := fields[|fields| - 1];
      if before.Some? then before
      else match PyContains(action, field)
        case None => Some(NotIterable(action))
        case Some(present) => if present then None else Some(MissingField(idx, field))
  }

  /** The first problem with action number `idx`: a missing field, then a
      confidence outside high, medium and low. */
  function ActionCheck(idx: int, action: Json): Option<Failure> {
    var missing := FieldCheck(idx, action, REQUIRED);
    if missing.Some? then missing
    else match Subscript(action, "confidence")
      case Err(e) => Some(e)
      case Ok(c) =>
        if c in CONFIDENCE then None
        else Some(ValueError("Action " + IntToString(idx) + " has invalid confidence: " + Show(c)))
  }

  /** The problem with the first action that has one. */
  function ActionsCheck(actions: seq<Json>): Option<Failure> {
    if actions == [] then None
    else
      var before := ActionsCheck(actions[..|actions| - 1]);
      if before.Some? then before else ActionCheck(|actions| - 1, actions[|actions| - 1])
  }

  /** The parsed reply, or the first error in the order the checks run. */
  function Parse(response: string, decode: string -> Decoded): Result<Actions> {
    match decode(Unfence(response))
    case Malformed(m) => Err(ValueError("Invalid JSON in action items response: " + m))
    case Parsed(data) =>
      match PyContains(data, "actions")
      case None => Err(NotIterable(data))
      case Some(present) =>
        if !present then Err(ValueError("Response missing 'actions' field"))
        else match Subscript(data, "actions")
          case Err(e) => Err(e)
          case Ok(list) =>
            if !list.JArr? then Err(ValueError("'actions' must be a list"))
            else match ActionsCheck(list.items)
              case Some(e) => Err(e)
              case None => Ok(Actions(list.items, |list.items|))
  }

  method UnfenceText(response: string) returns (text: string)
    ensures text == Unfence(response)
  {
    text := Strip(response);
    if StartsWith(text, "```") {
      var lines := Split(text, '\n');
      lines := lines[1..];
      if lines != [] && Strip(lines[|lines| - 1]) == "```" {
        lines := lines[..|lines| - 1];
      }
      text := Join(lines, "\n");
    }
  }

  method CheckFields(idx: int, action: Json) returns (r: Option<Failure>)
    ensures r == FieldCheck(idx, action, REQUIRED)
  {
    var j := 0;
    while j < |REQUIRED|
      invariant 0 <= j <= |REQUIRED|
      invariant FieldCheck(idx, action, REQUIRED[..j]).None?
    {
      assert REQUIRED[..j + 1][..j] == REQUIRED[..j];
      var field := REQUIRED[j];
      var present := PyContains(action, field);
      if present.None? || !present.value {
        r := if present.None? then Some(NotIterable(action)) else Some(MissingField(idx, field));
        assert FieldCheck(idx, action, REQUIRED[..j + 1]) == r;
        FieldCheckExtends(idx, action, REQUIRED, j + 1);
        return;
      }
      assert FieldCheck(idx, action, REQUIRED[..j + 1]) == None;
      j := j + 1;
    }
    assert REQUIRED[..j] == REQUIRED;
    r := None;
  }

  method CheckAction(idx: int, action: Json) returns (r: Option<Failure>)
    ensures r == ActionCheck(idx, action)
  {
    r := CheckFields(idx, action);
    if r.Some? {
      return;
    }
    var confidence := Subscript(action, "confidence");
    if confidence.Err? {
      return Some(confidence.error);
    }
    if confidence.value !in CONFIDENCE {
      return Some(ValueError("Action " + IntToString(idx) + " has invalid confidence: " + Show(confidence.value)));
    }
  }

  method CheckActions(actions: seq<Json>) returns (r: Option<Failure>)
    ensures r == ActionsCheck(actions)
  {
    var idx := 0;
    while idx < |actions|
      invariant 0 <= idx <= |actions|
      invariant ActionsCheck(actions[..idx]).None?
    {
      assert actions[..idx + 1][..idx] == actions[..idx];
      r := CheckAction(idx, actions[idx]);
      if r.Some? {
        assert ActionsCheck(actions[..idx + 1]) == r;
        ActionsCheckExtends(actions, idx + 1);
        return;
      }
      idx := idx + 1;
    }
    assert actions[..idx] == actions;
    r := None;
  }

  method ParseResponse(response: string, decode: string -> Decoded) returns (r: Result<Actions>)
    ensures r == Parse(response, decode)
  {
    var text := UnfenceText(response);
    var decoded := decode(text);
    if decoded.Malformed? {
      return Err(ValueError("Invalid JSON in action items response: " + decoded.message));
    }
    var data := decoded.value;
    var has := PyContains(data, "actions");
    if has.None? {
      return Err(NotIterable(data));
    }
    if !has.value {
      return Err(ValueError("Response missing 'actions' field"));
    }
    var list := Subscript(data, "actions");
    if list.Err? {
      return Err(list.error);
    }
    if !list.value.JArr? {
      return Err(ValueError("'actions' must be a list"));
    }
    var problem := CheckActions(list.value.items);
    if problem.Some? {
      return Err(problem.value);
    }
    r := Ok(Actions(list.value.items, |list.value.items|));
  }

  /** Once a prefix of the actions fails, the whole check fails the same way. */
  lemma {:induction false} ActionsCheckExtends(actions: seq<Json>, n: int)
    requires 0 <= n <= |actions| && ActionsCheck(actions[..n]).Some?
    ensures ActionsCheck(actions) == ActionsCheck(actions[..n])
    decreases |actions| - n
  {
    if n < |actions| {
      assert actions[..n + 1][..n] == actions[..n];
      ActionsCheckExtends(actions, n + 1);
    } else {
      assert actions[..n] == actions;
    }
  }

  /** Once a prefix of the fields fails, the whole check fails the same way. */
  lemma {:induction false} FieldCheckExtends(idx: int, action: Json, fields: seq<string>, n: int)
    requires 0 <= n <= |fields| && FieldCheck(idx, action, fields[..n]).Some?
    ensures FieldCheck(idx, action, fields) == FieldCheck(idx, action, fields[..n])
    decreases |fields| - n
  {
    if n < |fields| {
      assert fields[..n + 1][..n] == fields[..n];
      FieldCheckExtends(idx, action, fields, n + 1);
    } else {
      assert fields[..n] == fields;
    }
  }

  /** The first problem a list of actions reports belongs to the first action with one. */
  lemma {:induction false} ActionsCheckFirst(actions: seq<Json>)
    ensures ActionsCheck(actions).None? <==> forall i :: 0 <= i < |actions| ==> ActionCheck(i, actions[i]).None?
    ensures ActionsCheck(actions).Some? ==> exists i :: (0 <= i < |actions| &&
      ActionsCheck(actions) == ActionCheck(i, actions[i]) &&
      forall j :: 0 <= j < i ==> ActionCheck(j, actions[j]).None?)
  {
    if actions != [] {
      var n := |actions| - 1;
      ActionsCheckFirst(actions[..n]);
      assert forall i :: 0 <= i < n ==> actions[..n][i] == actions[i];
    }
  }

  /** On a dict, the field check passes exactly when every field is present, and
      otherwise names the first missing one. */
  lemma {:induction false} FieldCheckObject(idx: int, action: Json, fields: seq<string>)
    requires action.JObj?
    ensures FieldCheck(idx, action, fields).None? <==> forall f :: f in fields ==> f in action.fields
    ensures FieldCheck(idx, action, fields).Some? ==> exists k :: (0 <= k < |fields| &&
      FieldCheck(idx, action, fields) == Some(MissingField(idx, fields[k])) &&
      fields[k] !in action.fields && forall j :: 0 <= j < k ==> fields[j] in action.fields)
  {
    if fields != [] {
      var n := |fields| - 1;
      FieldCheckObject(idx, action, fields[..n]);
      assert fields == fields[..n] + [fields[n]];
      assert forall j :: 0 <= j < n ==> fields[..n][j] == fields[j];
    }
  }

  /** A well-formed action: a dict with every required field and a known confidence. */
  predicate WellFormed(action: Json) {
    action.JObj? && (forall f :: f in REQUIRED ==> f in action.fields) && action.fields["confidence"] in CONFIDENCE
  }

  lemma ActionCheckWellFormed(idx: int, action: Json)
    ensures ActionCheck(idx, action).None? <==> WellFormed(action)
  {
    if action.JObj? {
      FieldCheckObject(idx, action, REQUIRED);
    } else {
      FieldCheckNotObject(idx, action, REQUIRED);
    }
  }

  /** A value that is not a dict never passes all the field tests and the lookup. */
  lemma {:induction false} FieldCheckNotObject(idx: int, action: Json, fields: seq<string>)
    requires !action.JObj?
    ensures FieldCheck(idx, action, fields).None? ==> forall f :: f in fields ==> PyContains(action, f) == Some(true)
  {
    if fields != [] {
      var n := |fields| - 1;
      FieldCheckNotObject(idx, action, fields[..n]);
      assert fields == fields[..n] + [fields[n]];
    }
  }

  /** The parse succeeds exactly when the unfenced reply decodes to a dict whose
      `actions` is a list of well-formed actions, and then returns that list
      unchanged with its length. */
  lemma ParseSpec(response: string, decode: string -> Decoded)
    ensures var r := Parse(response, decode);
      var d := decode(Unfence(response));
      r.Ok? <==> (d.Parsed? && d.value.JObj? && "actions" in d.value.fields &&
        d.value.fields["actions"].JArr? &&
        forall a :: a in d.value.fields["actions"].items ==> WellFormed(a))
    ensures var r := Parse(response, decode);
      var d := decode(Unfence(response));
      r.Ok? ==> r.value.actions == d.value.fields["actions"].items && r.value.count == |r.value.actions|
  {
    var d := decode(Unfence(response));
    if d.Parsed? && d.value.JObj? && "actions" in d.value.fields && d.value.fields["actions"].JArr? {
      var items := d.value.fields["actions"].items;
      ActionsCheckFirst(items);
      forall i | 0 <= i < |items| ensures ActionCheck(i, items[i]).None? <==> WellFormed(items[i]) {
        ActionCheckWellFormed(i, items[i]);
      }
    }
    if d.Parsed? && !d.value.JObj? {
      var data := d.value;
      if data.JArr? || data.JStr? {
        assert Subscript(data, "actions").Err?;
      }
    }
  }

  /** A fenced reply, a language tag on the opening line, unwraps to exactly its body. */
  lemma UnfenceFenced(lang: string, body: string)
    requires '\n' !in lang
    ensures Unfence("```" + lang + "\n" + body + "\n```") == body
  {
    var s := "```" + lang + "\n" + body + "\n```";
    StripUnchanged(s);
    assert StartsWith(s, "```") by {
      assert s[..3] == "```";
    }
    assert s == ("```" + lang) + ['\n'] + (body + ['\n'] + "```");
    SplitConcat("```" + lang, body + ['\n'] + "```", '\n');
    SplitConcat(body, "```", '\n');
    SplitNoSep("```" + lang, '\n');
    SplitNoSep("```", '\n');
    var lines := Split(s, '\n')[1..];
    assert lines == Split(body, '\n') + ["```"];
    assert Strip("```") == "```" by {
      StripUnchanged("```");
    }
    assert lines[..|lines| - 1] == Split(body, '\n');
    SplitJoin(body, '\n');
  }

  /** A reply that does not open with a fence is only stripped. */
  lemma UnfenceUnfenced(response: string)
    requires !StartsWith(Strip(response), "```")
    ensures Unfence(response) == Strip(response)
  {
  }
}
