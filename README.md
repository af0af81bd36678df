# Weekly report generator: a verified model

This project models, in Dafny, the core of a report generator that turns a
spreadsheet of deliverables into a weekly "Key Priorities" status report. The
report can be enriched by a language model and rendered for three audiences.
The model covers these parts:

- **Data pipeline.** `DataTransformer` maps source columns to fields and
  applies per-field transformations (`split_multi_value_names`,
  `preserve_line_breaks`). `DataValidator` reports structural problems in
  the rows. The report's own configuration supplies the field and lead
  mappings, `parse_leads_from_row` and `clean_transformed_row`.
- **Report builder.** `KPRReportBuilder` groups deliverables by status in
  order of first occurrence. It sorts the groups by the configured status
  order with a stable sort, and builds the template context.
- **Reasoning layer.**
  - `AnthropicProvider`: argument checks, a retry loop with exponential
    backoff, and token accounting.
  - `ReasoningConfig` and the global configuration slot.
  - The three prompt modules (executive summary, risk analysis, action
    items): prompt building and response parsing.
  - `ReportSynthesizer`: it runs the enabled analyses and degrades
    gracefully when one fails.
- **Audience renderers.** The executive, technical and partner
  `transform_context` functions, and the common step of `render` that adds
  the logo and the audience name.

The files are as follows:

| File | Contents |
|---|---|
| `wrappers.dfy` | `Option`, `Result` and the exceptions (`Failure`) |
| `json.dfy` | decoded JSON values, with Python's `in` and `[]` on them |
| `text.dfy`, `seqs.dfy` | string and sequence helpers |
| `report.dfy` | deliverables, status groups and the context record |
| `views.dfy` | what a renderer hands to its template |

Each further file models one source file.

The model works with values throughout:
- A Python `dict` row is a `map<string, ...>`.
- A list of `(status, items)` tuples is a `seq<StatusGroup>`.
- An exception is an `Err` of `Result`.

The source's mutable objects are classes whose methods are proved against
specification functions: the provider with its counters, the SDK client, the
synthesizer, the transformer and the configuration slot. Every loop of the
source is a `method` with a `while` loop, proved equal to a recursive
specification function. Its properties are then proved as lemmas about that
function.

The outside world is a set of parameters:
- **The Anthropic SDK** is a `Client` whose n-th call returns `script(n)`
  (a reply or a raised exception).
- **`json.loads`** is a `decode` function.
- **`float()`** is a `parseReal` function.
- **The environment** is a `map<string, string>`.
- **`datetime.now()` and `format_date`** are a string and a function
  argument.
- **`time.sleep`** is recorded as a list of delays.

Where the code and its documentation disagree, the model follows the code.
The docstring of `build_status_groups` lists the order "On Track, At Risk,
Off Track, Complete". `STATUS_CONFIG` orders Off Track 1, At Risk 2,
On Track 3, Complete 4, and the model uses `STATUS_CONFIG`.

`RiskLines` keeps every reportable item, duplicates included, as
`_extract_risks_summary` does (executive_summary.py:143-160).

The audience dispatch renders the partner view as written, including the
failure recorded under "## Findings". The partner view lemmas are stated of
the corrected view. `PartnerViewOutcome` proves that the view as written is
the corrected view wherever it succeeds, so they hold of it too.

## Model

| member | source | states |
|---|---|---|
| Transformers.PieceShape | src/report_generator/data/transformers.py:48-52 | every piece kept after splitting on commas, stripping and dropping empties is non-empty, comma-free and has no surrounding whitespace |
| Transformers.DistinctPiecesShape | src/report_generator/data/transformers.py:48-56 | after `dict.fromkeys` de-duplication the names are pairwise distinct and keep that shape |
| Transformers.SplitMultiValueNamesShape | src/report_generator/data/transformers.py:44-58 | None or "" gives []; otherwise the names are distinct, non-empty, comma-free and stripped |
| Transformers.SplitMultiValueNamesOrder | src/report_generator/data/transformers.py:47-58 | a name is in the result iff it is a stripped non-empty piece of the input, and names are listed in order of first occurrence |
| Transformers.RepeatedNameKeptOnce | src/report_generator/data/transformers.py:34-36 | the documented example: "a, b, a" gives [a, b] |
| Transformers.BreakLinesRemovesEndings | src/report_generator/data/transformers.py:240-247 | no '\n' or '\r' survives the three replacements |
| Transformers.BreakLinesPlain | src/report_generator/data/transformers.py:240-247 | text without line endings is unchanged |
| Transformers.LineEndingIsOneBreak | src/report_generator/data/transformers.py:240-247 | "\r\n", "\n" and a lone "\r" each become exactly one `<br>` |
| Transformers.PreserveLineBreaksSpec | src/report_generator/data/transformers.py:234-249 | falsy input gives ""; the result has no line endings and, for non-blank input, starts and ends with the stripped text's first and last characters, which are not whitespace |
| Transformers.Transformed | src/report_generator/data/transformers.py:185-204 | the keys of a transformed row are exactly the target fields of the mappings |
| Transformers.LastMappingWins | src/report_generator/data/transformers.py:187-202 | a target field holds the value converted from the last mapping that writes it |
| Transformers.TransformedValue | src/report_generator/data/transformers.py:187-200 | with a transformation, it is applied to the raw value ("" when the column is missing); without one, a missing column or None gives "" and a string gives its stripped value |
| Transformers.DataTransformer.constructor | src/report_generator/data/transformers.py:141-142 | keeps the mappings; a missing transformations dict becomes {} |
| Transformers.DataTransformer.TransformRow | src/report_generator/data/transformers.py:165-204 | the loop over the mappings builds exactly `Transformed` of the row |
| Transformers.DataTransformer.Transform | src/report_generator/data/transformers.py:144-163 | one transformed row per input row, in order |
| Validator.InconsistentRowsSpec | src/report_generator/data/validator.py:125-148 | k is reported iff 2 ≤ k ≤ len(data) and row k's key set differs from row 1's; the list is strictly increasing |
| Validator.CheckColumnConsistency | src/report_generator/data/validator.py:125-148 | the loop returns exactly `InconsistentRows` |
| Validator.Validate | src/report_generator/data/validator.py:35-123 | the method builds exactly `Validation`, with warnings and info in the source's order |
| Validator.ValidationOutcome | src/report_generator/data/validator.py:72-91 | valid iff the data is non-empty and its first row has columns; valid iff no errors; an invalid result has one error and returns early with no warnings or info |
| Validator.MissingColumnsReported | src/report_generator/data/validator.py:94-105 | the missing-columns warning and its info note appear iff an expected column is absent from row 1, and the warning lists exactly those columns, sorted |
| Validator.UnexpectedColumnsNoted | src/report_generator/data/validator.py:108-111 | unexpected columns give an info note only when expectations are non-empty, and never a warning |
| Validator.SomeRowDiffers | src/report_generator/data/validator.py:138-148 | the consistency check reports something iff some later row's columns differ from row 1's |
| Validator.InconsistentRowsReported | src/report_generator/data/validator.py:114-121 | the inconsistent-rows warning and the data-quality note appear iff some row's columns differ from row 1's |
| KprConfig.ExpectedColumnsDistinct | src/report_generator/reports/example_report/config.py:152 | EXPECTED_COLUMNS holds 13 distinct entries |
| KprConfig.RoleNamesAreLeadMappings | src/report_generator/reports/example_report/config.py:38-44 | the role names are LEAD_MAPPINGS' values, in order and distinct |
| KprConfig.PutLeads | src/report_generator/reports/example_report/config.py:172-177 | the loop appends one `_lead_{role.lower()}` mapping per lead column after the field mappings |
| KprConfig.GetTransformerConfig | src/report_generator/reports/example_report/config.py:160-179 | returns FIELD_MAPPINGS followed by the lead mappings, and TRANSFORMATIONS |
| KprConfig.LeadsOfSpec | src/report_generator/reports/example_report/config.py:196-203 | the leads map has exactly the given roles, each mapped to `split_multi_value_names` of its `_lead_` field ("" when missing) |
| KprConfig.ReadLeads | src/report_generator/reports/example_report/config.py:198-201 | the loop over the roles builds exactly `LeadsOf` |
| KprConfig.ParseLeadsFromRow | src/report_generator/reports/example_report/config.py:182-203 | returns `LeadsOf` over the five roles |
| KprConfig.LeadsSpec | src/report_generator/reports/example_report/config.py:182-203 | exactly the five role keys; each list is the split of its field, distinct and without empty names |
| KprConfig.CleanTransformedRow | src/report_generator/reports/example_report/config.py:206-227 | returns `Cleaned` of the row |
| KprConfig.CleanedSpec | src/report_generator/reports/example_report/config.py:218-227 | no `_lead_` key survives; every other key keeps its value; the structured leads are `parse_leads_from_row` of the row |
| KprBuilder.AddToLabels | src/report_generator/reports/example_report/builder.py:69-72 | adding an item appends its key to the labels only when the key is new |
| KprBuilder.AddToGroups | src/report_generator/reports/example_report/builder.py:69-72 | a new key opens a group [item] at the end; otherwise only the group with that key gets the item appended |
| KprBuilder.AddToCount | src/report_generator/reports/example_report/builder.py:69-72 | adding an item adds one to the item count |
| KprBuilder.GroupByField | src/report_generator/reports/example_report/builder.py:36-74 | the grouping loop returns exactly `Grouped` |
| KprBuilder.GroupedLabels | src/report_generator/reports/example_report/builder.py:57-74 | the group labels are the stripped keys, de-duplicated in order of first occurrence |
| KprBuilder.GroupedItems | src/report_generator/reports/example_report/builder.py:57-74 | each group holds exactly the items with its key, in input order |
| KprBuilder.GroupedCount | src/report_generator/reports/example_report/builder.py:57-74 | the groups together hold len(data) items |
| KprBuilder.ExactlyOneGroup | src/report_generator/reports/example_report/builder.py:57-74 | every item lies in the group of its own key and in no other |
| KprBuilder.SortByOrderSpec | src/report_generator/reports/example_report/builder.py:97-105 | the result is ordered by configured order (999 when unknown) and is a permutation of the groups |
| KprBuilder.SortByOrderCount | src/report_generator/reports/example_report/builder.py:97-105 | sorting keeps the total item count |
| KprBuilder.SortByOrderStable | src/report_generator/reports/example_report/builder.py:103 | groups with equal order keep their relative order |
| KprBuilder.BuildStatusGroups | src/report_generator/reports/example_report/builder.py:107-133 | groups by "status", then sorts by STATUS_CONFIG |
| KprBuilder.StatusOrderIsRank | src/report_generator/reports/example_report/config.py:70-91 | the configured order agrees with the ranking Off Track < At Risk < On Track < Complete < any other status |
| KprBuilder.StatusGroupsSpec | src/report_generator/reports/example_report/builder.py:107-133 | the status groups are in that rank order, a permutation of the grouping, each holding exactly its status's items in input order, len(data) items in all |
| KprBuilder.BuildContext | src/report_generator/reports/example_report/builder.py:135-174 | returns the context of status groups, total, report date and title |
| KprBuilder.ContextCounts | src/report_generator/reports/example_report/builder.py:153-165 | `total_deliverables` is len(data), and so is the item count across the status groups |
| Report.CriticalGroups | src/report_generator/output/renderers/executive.py:63-69 | the result is the input's Off Track and At Risk groups in their original order (the list comprehension as a filter), so every kept group is a critical group of the input |
| ExecutiveRenderer.CriticalGroupsComplete | src/report_generator/output/renderers/executive.py:63-69 | every critical group of the input is kept |
| ExecutiveRenderer.OnTrackPartition | src/report_generator/output/renderers/executive.py:63-77 | shown items plus on-track count equal all items |
| ExecutiveRenderer.ExecutiveViewFlags | src/report_generator/output/renderers/executive.py:54-82 | the whole context survives; view_type "executive" and no technical details; has_synthesis and synthesis_emphasized set to True when the synthesis is non-empty; otherwise neither key is added and any input value of either is kept |
| ExecutiveRenderer.ExecutiveViewGroups | src/report_generator/output/renderers/executive.py:63-77 | with status groups, the shown groups are exactly the critical ones in input order, and shown plus counted items add up to all; without, neither key is set |
| ExecutiveRenderer.ExecutiveViewDeliverables | src/report_generator/output/renderers/executive.py:84-96 | one summary per deliverable, in order, holding `d.get` of its four fields |
| ExecutiveRenderer.ReportCountsAddUp | src/report_generator/output/renderers/executive.py:63-77 | on a built report context, shown and counted deliverables add up to the number of rows |
| TechnicalRenderer.TechnicalViewSpec | src/report_generator/output/renderers/technical.py:53-80 | the whole context, synthesis and status groups survive; the view is technical with all details; risk_analysis_expanded is set when the synthesis' risk analysis is truthy |
| TechnicalRenderer.TechnicalViewDeliverables | src/report_generator/output/renderers/technical.py:66-76 | one detailed entry per deliverable with all its fields and leads and the three display flags true |
| PartnerRenderer.StatusSummarySpec | src/report_generator/output/renderers/partner.py:64-68 | one count per status label, equal to the size of the last group with that label |
| PartnerRenderer.SanitizeTextSpec | src/report_generator/output/renderers/partner.py:112-135 | placeholders give "No issues reported"; text over 200 characters is cut to 200 plus "..."; other text is unchanged; the result has at most 203 characters |
| PartnerRenderer.SanitizeTextIdempotent | src/report_generator/output/renderers/partner.py:112-135 | sanitizing twice is the same as once |
| PartnerRenderer.SanitizedShowsNoLead | src/report_generator/output/renderers/partner.py:92-110 | the sanitized deliverable depends only on name, status and risk text, and its lead is always "Internal Team" |
| PartnerRenderer.KeptThemesSpec | src/report_generator/output/renderers/partner.py:154-158 | the theme filter succeeds iff every theme has a readable severity, and then keeps exactly the themes not of high severity, in order |
| PartnerRenderer.NullRiskAnalysisRaises | src/report_generator/output/renderers/partner.py:149-152 | sanitizing a None risk analysis raises TypeError |
| PartnerRenderer.SanitizeRiskAnalysisSpec | src/report_generator/output/renderers/partner.py:137-161 | the result has at most a `themes` key, holding only themes not of high severity; a dict of readable themes gives exactly the filtered list; anything without themes gives {} |
| PartnerRenderer.FailedRiskAnalysisBreaksPartnerView | src/report_generator/output/renderers/partner.py:79-86 | a synthesis whose risk analysis failed makes the view as written raise, while the corrected view succeeds |
| PartnerRenderer.PartnerViewOutcome | src/report_generator/output/renderers/partner.py:79-86 | the view as written fails exactly when the synthesis holds a risk analysis its sanitizer raises on: a null, boolean or number, a list or string holding "themes", or a dict whose themes cannot be filtered; where it succeeds it equals the corrected view, which fails only on such a dict |
| PartnerRenderer.SanitizeAsWrittenSpec | src/report_generator/output/renderers/partner.py:149-161 | the sanitizer as written fails on non-dicts where `in` raises or finds "themes", and on dicts exactly where the corrected one fails; where it succeeds the two agree |
| PartnerRenderer.PartnerViewFlags | src/report_generator/output/renderers/partner.py:55-70 | the context survives; view_type "partner", no technical details, external view; with status groups, show_detailed_items is false and status_summary has one count per label |
| PartnerRenderer.PartnerViewDeliverables | src/report_generator/output/renderers/partner.py:72-76 | one sanitized entry per deliverable, lead hidden and risk text sanitized |
| PartnerRenderer.PartnerViewSynthesis | src/report_generator/output/renderers/partner.py:78-88 | the synthesis keeps its keys and every entry but the risk analysis, which holds only non-high themes |
| JsonValues.PyContains | src/report_generator/output/renderers/partner.py:152 | `key in value` works on dicts (key membership), lists and strings, and raises on other values |
| JsonValues.Subscript | src/report_generator/output/renderers/partner.py:156 | `value[key]` succeeds iff the value is a dict holding the key, and gives its entry |
| AudienceRenderers.TemplateContextSpec | src/report_generator/output/renderers/base.py:96-103 | the template gets the transformed context plus the logo and the audience name, every other key unchanged; the executive and technical views always render; the partner one renders exactly when its view as written succeeds, and is then the corrected view |
| AudienceRenderers.FailedRiskAnalysisFailsPartnerRender | src/report_generator/output/renderers/base.py:96-97 | rendering a context whose risk analysis failed for partners raises |
| AudienceRenderers.AudiencesDistinct | src/report_generator/output/renderers/base.py:41-58 | the three audiences have distinct names and templates |
| Provider.Client.Create | src/report_generator/reasoning/provider.py:177-183 | the client answers its n-th request with its n-th scripted reply and records the request |
| Provider.BackoffsIndex | src/report_generator/reasoning/provider.py:194-197 | the delay after failed attempt a is RETRY_DELAY·2^a |
| Provider.CheckRequest | src/report_generator/reasoning/provider.py:164-171 | a request is rejected, with ValueError, iff the stripped prompt is empty, max_tokens ≤ 0 or the temperature is outside [0.0, 1.0] |
| Provider.RejectedRequestIsFree | src/report_generator/reasoning/provider.py:164-171 | a rejected request raises ValueError with no client call, tokens or sleeps |
| Provider.RetryBounds | src/report_generator/reasoning/provider.py:175-198 | at most max_retries client calls, and token counters never decrease |
| Provider.RetryFirstSuccess | src/report_generator/reasoning/provider.py:175-198 | when attempts fail until attempt k answers: the first content block's text of attempt k, k+1 calls, the backoffs after each failure, and that response's tokens added |
| Provider.RetryAllFail | src/report_generator/reasoning/provider.py:192-203 | when every attempt fails: LLMProviderError naming max_retries and the last error, max_retries calls, max_retries−1 sleeps, counters unchanged when every attempt raised |
| Provider.ResolveApiKey | src/report_generator/reasoning/provider.py:116-121 | the key is the non-empty argument, else the environment's; ValueError when neither is set |
| Provider.ResolveModel | src/report_generator/reasoning/provider.py:123 | the non-empty model argument, else ANTHROPIC_MODEL, else DEFAULT_MODEL |
| Provider.AnthropicProvider.constructor | src/report_generator/reasoning/provider.py:116-128 | stores key, model, retries and client with both counters at 0 |
| Provider.NewAnthropicProvider | src/report_generator/reasoning/provider.py:99-128 | construction fails exactly when no key is available; otherwise a fresh provider with the resolved key and model and zeroed counters |
| Provider.AnthropicProvider.Generate | src/report_generator/reasoning/provider.py:141-203 | result, counters, sleeps and client calls are those of the checks followed by the retry loop; every request carries the model, max_tokens, temperature, system prompt or "" and the prompt |
| Provider.AnthropicProvider.Attempts | src/report_generator/reasoning/provider.py:173-203 | the loop's result and effects are exactly the recursive retry specification's |
| Provider.AnthropicProvider.GetTokenUsage | src/report_generator/reasoning/provider.py:205-215 | reports both counters unchanged |
| Provider.AnthropicProvider.ResetTokenUsage | src/report_generator/reasoning/provider.py:217-220 | sets both counters to 0 |
| ReasoningConfig.ParseBoolEnv | src/report_generator/reasoning/config.py:131-144 | an override wins; otherwise true words give true, false words false, anything else the default |
| ReasoningConfig.ParseBoolIgnoresCase | src/report_generator/reasoning/config.py:138 | the environment value is compared in lower case |
| ReasoningConfig.ParseInt | src/report_generator/reasoning/config.py:155 | `int()` accepts exactly a stripped run of digits with an optional sign |
| ReasoningConfig.ParseIntRoundTrip | src/report_generator/reasoning/config.py:155 | `int(str(i)) == i` |
| ReasoningConfig.ParseIntEnv | src/report_generator/reasoning/config.py:147-158 | an override wins; an absent, empty or unparsable value gives the default; otherwise the parsed value |
| ReasoningConfig.IntEnvRoundTrip | src/report_generator/reasoning/config.py:147-158 | an integer written to the environment is read back |
| ReasoningConfig.ParseFloatEnv | src/report_generator/reasoning/config.py:161-174 | an override wins; an absent, empty or unparsable value gives the default; otherwise the parsed value |
| ReasoningConfig.ResolveProvider | src/report_generator/reasoning/config.py:57-60 | the non-empty argument as given, else the environment value lower-cased, else "anthropic" |
| ReasoningConfig.ProviderChoice | src/report_generator/reasoning/config.py:99-116 | disabled fails first; anthropic and openai are chosen by exact name; anything else is a ValueError |
| ReasoningConfig.UnsupportedMessage | src/report_generator/reasoning/config.py:112-116 | the error for an unknown provider names it and both supported providers |
| ReasoningConfig.ReasoningConfig.constructor | src/report_generator/reasoning/config.py:37-69 | each setting from its argument, else the environment, else its default |
| ReasoningConfig.ReasoningConfig.GetGenerationParams | src/report_generator/reasoning/config.py:118-128 | exactly max_tokens and temperature |
| ReasoningConfig.ReasoningConfig.GetProvider | src/report_generator/reasoning/config.py:89-116 | the choice's error; NotImplementedError for openai; for anthropic, a provider built from the environment or its ValueError |
| ReasoningConfig.ConfigSlot.constructor | src/report_generator/reasoning/config.py:178 | the slot starts empty |
| ReasoningConfig.ConfigSlot.GetConfig | src/report_generator/reasoning/config.py:181-191 | returns the stored instance, or creates, stores and returns one from the environment |
| ReasoningConfig.ConfigSlot.SetConfig | src/report_generator/reasoning/config.py:194-202 | stores the given instance |
| ReasoningConfig.ConfigSlot.ResetConfig | src/report_generator/reasoning/config.py:205-208 | empties the slot |
| ReasoningConfig.ConfigLifecycle | src/report_generator/reasoning/config.py:181-208 | two gets return the same instance, a get after set returns the set one, and a get after reset returns a fresh one, which the slot then holds |
| ExecutiveSummary.FormatStatusBreakdown | src/report_generator/reasoning/prompts/executive_summary.py:75-93 | the loop builds exactly `StatusBreakdown`: a placeholder for no groups, else one line per group |
| ExecutiveSummary.BreakdownLinePlural | src/report_generator/reasoning/prompts/executive_summary.py:91 | a line ends in "s" iff its count is not 1 |
| ExecutiveSummary.BreakdownLinesSpec | src/report_generator/reasoning/prompts/executive_summary.py:88-93 | one breakdown line per group, in order |
| ExecutiveSummary.StatusBreakdownMentions | src/report_generator/reasoning/prompts/executive_summary.py:88-93 | the breakdown contains every group's line |
| ExecutiveSummary.DescribeGroup | src/report_generator/reasoning/prompts/executive_summary.py:111-125 | one description per item of a critical group, in order |
| ExecutiveSummary.ExtractCriticalItems | src/report_generator/reasoning/prompts/executive_summary.py:96-130 | the nested loop builds exactly `CriticalItems` |
| ExecutiveSummary.CriticalLinesCount | src/report_generator/reasoning/prompts/executive_summary.py:106-125 | one line per item of an Off Track or At Risk group |
| ExecutiveSummary.DescribeLabelled | src/report_generator/reasoning/prompts/executive_summary.py:117 | each description starts with "- [status] " |
| ExecutiveSummary.CriticalLinesLabelled | src/report_generator/reasoning/prompts/executive_summary.py:106-125 | every critical line is labelled Off Track or At Risk |
| ExecutiveSummary.GroupRiskLines | src/report_generator/reasoning/prompts/executive_summary.py:146-155 | the inner loop builds exactly `RiskLines` |
| ExecutiveSummary.ExtractRisksSummary | src/report_generator/reasoning/prompts/executive_summary.py:133-160 | the nested loop builds exactly `RisksSummary` |
| ExecutiveSummary.RiskLinesSpec | src/report_generator/reasoning/prompts/executive_summary.py:145-155 | a risk line is listed iff it is the line of a reportable item (stripped, non-empty, not boilerplate in any case) |
| ExecutiveSummary.BuildPrompt | src/report_generator/reasoning/prompts/executive_summary.py:11-72 | returns `Prompt`, always a string |
| ExecutiveSummary.MiddleCarried | src/report_generator/reasoning/prompts/executive_summary.py:40-53 | the prompt contains each of its five inserted parts |
| ExecutiveSummary.PromptCarriesMetadata | src/report_generator/reasoning/prompts/executive_summary.py:29-44 | the prompt contains the report date (default "Unknown") and the total (default 0) |
| ExecutiveSummary.PromptCarries | src/report_generator/reasoning/prompts/executive_summary.py:33-53 | the prompt contains the breakdown, the critical items and the risks summary |
| ExecutiveSummary.ParseResponse | src/report_generator/reasoning/prompts/executive_summary.py:163-200 | returns `Summarize` of the response |
| ExecutiveSummary.DropPreamblesStripped | src/report_generator/reasoning/prompts/executive_summary.py:184-194 | removing preambles keeps the text stripped and never longer |
| ExecutiveSummary.SentenceCountIsPositions | src/report_generator/reasoning/prompts/executive_summary.py:199 | sentence_count is the number of '.', '!' and '?' positions |
| ExecutiveSummary.SummarizeSpec | src/report_generator/reasoning/prompts/executive_summary.py:183-200 | the summary is stripped and no longer than the response; length is its length; sentence_count counts its terminators |
| RiskAnalysis.GroupRisks | src/report_generator/reasoning/prompts/risk_analysis.py:104-119 | the inner loop builds exactly `GroupEntries` |
| RiskAnalysis.ExtractRisks | src/report_generator/reasoning/prompts/risk_analysis.py:91-121 | the nested loop builds exactly `Entries` |
| RiskAnalysis.HasRiskIsReportable | src/report_generator/reasoning/prompts/risk_analysis.py:109-114 | the risk filter is the executive summary's reportable filter |
| RiskAnalysis.EntriesBound | src/report_generator/reasoning/prompts/risk_analysis.py:103-119 | no more risks than items |
| RiskAnalysis.EntriesCount | src/report_generator/reasoning/prompts/risk_analysis.py:103-119 | one risk per item with reportable risk text |
| RiskAnalysis.EntriesSound | src/report_generator/reasoning/prompts/risk_analysis.py:103-119 | every risk is an item of some group, with that group's label and the item's stripped text |
| RiskAnalysis.EntriesComplete | src/report_generator/reasoning/prompts/risk_analysis.py:103-119 | every item with reportable risk text yields its risk |
| RiskAnalysis.FormatRisks | src/report_generator/reasoning/prompts/risk_analysis.py:124-132 | the loop builds exactly `RisksText` |
| RiskAnalysis.BlockLinesSpec | src/report_generator/reasoning/prompts/risk_analysis.py:126-130 | exactly three lines per risk: "**name** (status)", "Risk: text" and "" |
| RiskAnalysis.BuildPrompt | src/report_generator/reasoning/prompts/risk_analysis.py:11-88 | returns `Prompt` |
| RiskAnalysis.PromptNone | src/report_generator/reasoning/prompts/risk_analysis.py:24-31 | no prompt iff no item has reportable risk text, including when status_groups is missing |
| RiskAnalysis.RisksTextMentions | src/report_generator/reasoning/prompts/risk_analysis.py:124-132 | the risks text contains each risk's heading and text |
| RiskAnalysis.PromptMentions | src/report_generator/reasoning/prompts/risk_analysis.py:33-39 | a prompt contains every extracted deliverable's heading and risk text |
| RiskAnalysis.ParseMalformed | src/report_generator/reasoning/prompts/risk_analysis.py:167-174 | undecodable text gives empty arrays and a parse_error, never an exception |
| RiskAnalysis.ParseObject | src/report_generator/reasoning/prompts/risk_analysis.py:155-165 | a decoded object keeps its keys and values and gains [] for each missing array key, and nothing else |
| RiskAnalysis.ParseScalar | src/report_generator/reasoning/prompts/risk_analysis.py:158 | a decoded number, boolean or null raises TypeError at the first `in` |
| RiskAnalysis.ParseSequence | src/report_generator/reasoning/prompts/risk_analysis.py:158-163 | a decoded list or string is returned only if it already contains all three keys; otherwise the item assignment raises |
| ActionItems.CollectCriticals | src/report_generator/reasoning/prompts/action_items.py:26-40 | the loop collects the Off Track and At Risk deliverables, in order, with their defaults |
| ActionItems.FormatBreakdown | src/report_generator/reasoning/prompts/action_items.py:55-58 | the loop builds exactly the breakdown lines |
| ActionItems.FormatBlocks | src/report_generator/reasoning/prompts/action_items.py:69-78 | the loop builds exactly `Blocks`, numbered from 1 |
| ActionItems.BuildPrompt | src/report_generator/reasoning/prompts/action_items.py:12-119 | returns `Prompt` |
| ActionItems.PromptNone | src/report_generator/reasoning/prompts/action_items.py:26-44 | no prompt iff no deliverable is Off Track or At Risk, including when the list is missing |
| ActionItems.CriticalsSpec | src/report_generator/reasoning/prompts/action_items.py:26-40 | a deliverable gets a block iff its status is Off Track or At Risk: each such deliverable is shown, each block shows one, in input order, with "Unknown", "Unassigned" and "None" defaults |
| ActionItems.BlocksSpec | src/report_generator/reasoning/prompts/action_items.py:69-78 | five lines per deliverable, the block of the i-th headed by number i+1 |
| ActionItems.PromptNumbers | src/report_generator/reasoning/prompts/action_items.py:69-78 | the prompt contains the numbered heading of each critical deliverable |
| ActionItems.UnfenceText | src/report_generator/reasoning/prompts/action_items.py:138-148 | returns `Unfence` of the response |
| ActionItems.UnfenceFenced | src/report_generator/reasoning/prompts/action_items.py:141-148 | a fenced response loses its first line and its closing fence line |
| ActionItems.UnfenceUnfenced | src/report_generator/reasoning/prompts/action_items.py:138-141 | an unfenced response is only stripped |
| ActionItems.CheckFields | src/report_generator/reasoning/prompts/action_items.py:165-167 | the loop returns the first missing required field's error |
| ActionItems.CheckAction | src/report_generator/reasoning/prompts/action_items.py:164-171 | the first missing field, else an invalid confidence, else nothing |
| ActionItems.CheckActions | src/report_generator/reasoning/prompts/action_items.py:164-171 | the loop returns the first failing action's error |
| ActionItems.ParseResponse | src/report_generator/reasoning/prompts/action_items.py:122-176 | returns `Parse` of the response |
| ActionItems.ActionsCheckFirst | src/report_generator/reasoning/prompts/action_items.py:164-171 | no error iff every action passes; otherwise the error is the first failing action's |
| ActionItems.FieldCheckObject | src/report_generator/reasoning/prompts/action_items.py:165-167 | on a dict: no error iff all fields are present; otherwise the first missing field in the listed order |
| ActionItems.ActionCheckWellFormed | src/report_generator/reasoning/prompts/action_items.py:163-171 | an action passes iff it is a dict with all five fields and a confidence of high, medium or low |
| ActionItems.FieldCheckNotObject | src/report_generator/reasoning/prompts/action_items.py:165-167 | a non-dict passes the field check only if Python's `in` finds every field in it |
| ActionItems.ParseSpec | src/report_generator/reasoning/prompts/action_items.py:150-176 | success iff the text decodes to a dict whose "actions" is a list of well-formed actions; the result is that list unchanged with its length |
| Synthesizer.SynthesisKeys | src/report_generator/reasoning/synthesizer.py:85-112 | generated_at and model always present; summary keys iff the summary is enabled, with exactly one of metadata and error; no risk keys when disabled; an error implies risk_analysis None |
| Synthesizer.SummaryUnaffectedByRisks | src/report_generator/reasoning/synthesizer.py:90-112 | the executive-summary entries are the same whether risk analysis runs or not |
| Synthesizer.ActionItemsIgnored | src/report_generator/reasoning/synthesizer.py:78-112 | the action_items flag changes nothing |
| Synthesizer.DefaultFeatures | src/report_generator/reasoning/synthesizer.py:78-83 | no features means summary and risks enabled |
| Synthesizer.RisksCalls | src/report_generator/reasoning/synthesizer.py:161-166 | risk analysis makes at most max_retries calls, and none, with no result, when there is no prompt |
| Synthesizer.SynthesisCalls | src/report_generator/reasoning/synthesizer.py:49-112 | a synthesis makes at most twice the per-analysis call bound |
| Synthesizer.NothingAtRisk | src/report_generator/reasoning/synthesizer.py:104-112 | without a risk prompt no risk key is written and the outcome is that of a summary-only run |
| Synthesizer.SummaryEntries | src/report_generator/reasoning/synthesizer.py:90-102 | a failed summary writes None and the error text; a successful one writes the summary and its length and sentence_count |
| Synthesizer.SummaryOutcomeSpec | src/report_generator/reasoning/synthesizer.py:120-149 | the summary fails iff generation fails, with its error; otherwise the parsed summary's properties hold |
| Synthesizer.WithRisksKeeps | src/report_generator/reasoning/synthesizer.py:104-112 | the risk step touches no key but its own |
| Synthesizer.ReportSynthesizer.constructor | src/report_generator/reasoning/synthesizer.py:31-47 | stores the provider and the generation settings |
| Synthesizer.ReportSynthesizer.GenerateExecutiveSummary | src/report_generator/reasoning/synthesizer.py:120-149 | result and provider effects of one summary generation; every request uses the stored max_tokens and temperature |
| Synthesizer.ReportSynthesizer.AnalyzeRisks | src/report_generator/reasoning/synthesizer.py:151-182 | result and provider effects of one risk analysis; every request uses the stored settings |
| Synthesizer.ReportSynthesizer.SummaryStep | src/report_generator/reasoning/synthesizer.py:90-102 | the summary branch writes its entries only when enabled |
| Synthesizer.ReportSynthesizer.RisksStep | src/report_generator/reasoning/synthesizer.py:104-112 | the risk branch writes its entries only when enabled, adding its effects to the summary's |
| Synthesizer.ReportSynthesizer.Synthesize | src/report_generator/reasoning/synthesizer.py:49-118 | the input context with its synthesis replaced by the specified one; counters and requests advance by the specified tally |
| Synthesizer.ReportSynthesizer.GetTokenUsage | src/report_generator/reasoning/synthesizer.py:184-191 | the provider's counters |
| Synthesizer.ReportSynthesizer.ResetTokenUsage | src/report_generator/reasoning/synthesizer.py:193-195 | the provider's counters become 0 |

## Left out

- Leaving the spreadsheet loader, the e-mail draft handler, the command line and the demo script out of this model is deliberate. They are file, process and terminal I/O.
- The report generator's orchestration of these parts is not part of this model. It renders templates and writes files.
- Jinja template loading and rendering in `render` are not modelled. The model ends at the dictionary handed to the template.
- `format_date` is a function parameter of the transformer configuration. It delegates to `datetime.strptime` and `strftime`.
- `OpenAIProvider` is not modelled; it raises in every method. `get_provider` therefore yields `NotImplementedError` for "openai".
- `datetime.now()` is a string parameter: `synthesize` receives the timestamp and `build_context` the formatted report date.
- `float()` is the `parseReal` parameter, so only its fallback logic is modelled. `time.sleep` is only recorded.
- Display constants are not modelled: `BRAND_COLORS`, `PRIORITY_STYLES`, `EMPTY_STATES` and `ROLE_DISPLAY_ORDER`. The same holds for the `status_config` entry that `build_context` copies into the context; the model keeps the title.
- Prompt wording is checked only structurally. Lemmas state which parts a prompt contains, not its fixed text.
- Rows hold strings, and `None` where a cell is empty. Non-string cells and pandas' NaN are not modelled.
- Decoded JSON numbers are integers. Floating-point values in responses are not modelled.
- JsonValues.Show: a list or dict value is shown by a fixed tag ("[...]" or "{...}"), not by Python's `repr`. So the invalid-confidence message of `parse_response` (action_items.py:171) differs from the source's text for such a confidence.
- JsonValues.PyContains: `in` on a decoded list compares with element equality. On a string it is substring search. Other value kinds raise.
- PartnerRenderer.Iterate: iterating a decoded dict yields its keys in sorted order. Python uses insertion order, which decoded values do not record.
- Text.Lower: folds ASCII letters only, not Python's full Unicode lower-casing.
- ReasoningConfig.ParseInt: accepts ASCII digits, with single underscores between digits, an optional sign and surrounding whitespace, as Python's `int()` does. Non-ASCII digits, which `int()` also accepts, are not modelled.
- Synthesizer.ReportSynthesizer.Synthesize: the synthesis records the provider's `model`. The "unknown" fallback of `getattr` cannot arise, because the modelled provider always has one.
- RiskAnalysis.PromptMentions: it does not state that a filtered deliverable's name is absent from the prompt. That name can occur inside other text of the prompt.
- Overlaid keys: a structured key the renderer adds (such as `deliverables_summary`) is a field of the view. An input key of the same name stays in `extra` instead of being overwritten.
- Provider.RetryFirstSuccess: the added token counts are stated when every earlier failure raised. A response without content counts its tokens before failing, and those tokens are kept in the tally without being stated in closed form.

## Findings

| source | as written | input that shows it | evidently intended | confidence | as-written member | corrected member |
|---|---|---|---|---|---|---|
| src/report_generator/output/renderers/partner.py:83-86 with :149-152 | `_sanitize_risk_analysis` evaluates `"themes" in risk_analysis`. The synthesizer writes `risk_analysis = None` when risk analysis fails (src/report_generator/reasoning/synthesizer.py:110-112). The partner view of such a context therefore raises TypeError. | a context whose synthesis is `{"generated_at": t, "model": m, "risk_analysis": None, "risk_analysis_error": e}` | a missing or failed risk analysis is shown as an empty sanitized analysis, and the partner view renders | not executed | PartnerRenderer.SanitizeRiskAnalysisAsWritten (shown by PartnerRenderer.NullRiskAnalysisRaises and PartnerRenderer.FailedRiskAnalysisBreaksPartnerView) | PartnerRenderer.SanitizeRiskAnalysis (proved by PartnerRenderer.SanitizeRiskAnalysisSpec; used by PartnerRenderer.PartnerView; PartnerRenderer.SanitizeAsWrittenSpec shows both agree wherever the code as written succeeds) |
