/**
 * The configuration of the Key Priorities Report: which source columns feed
 * which fields, how lead columns become structured lead lists, and the order
 * of the status groups.
 */
module KprConfig {
  import opened Wrappers
  import opened Text
  import opened Seqs
  import opened Transformers
  import opened Report

  /** Source column to field name, in dictionary order. */
  const FIELD_MAPPINGS: seq<Mapping> := [
    ("L4 Deliverables", "deliverable"),
    ("L4 Priority", "priority"),
    ("Initiatives (L3)", "initiative"),
    ("Deliverable Status", "status"),
    ("Event Phase", "event_phase"),
    ("Delivery Date", "delivery_date"),
    ("Key Achievements", "key_achievements"),
    ("Risks & Issues", "risks_issues")]

  /** Lead column to role name, in dictionary order. */
  const LEAD_MAPPINGS: seq<Mapping> := [
    ("Product Workstream Lead", "Product"),
    ("Engineering Workstream Lead", "Engineering"),
    ("Program Workstream Lead", "Program"),
    ("Design Workstream Lead", "Design"),
    ("QA Workstream Lead", "QA")]

  const ROLES: seq<string> := ["Product", "Engineering", "Program", "Design", "QA"]

  const LEAD_PREFIX := "_lead_"

  /** The field keys of each kind of mapping. */
  function Sources(mappings: seq<Mapping>): seq<string> {
    Map((m: Mapping) => m.0, mappings)
  }

  function Targets(mappings: seq<Mapping>): seq<string> {
    Map((m: Mapping) => m.1, mappings)
  }

  /** The transformations by field; date formatting is a parameter. */
  function Transformations(formatDate: Transformation): map<string, Transformation> {
    map["delivery_date" := formatDate,
        "key_achievements" := PreserveLineBreaks,
        "risks_issues" := PreserveLineBreaks]
  }

  /** The order of each known status; a status missing here sorts last. */
  const STATUS_ORDER: map<string, Option<int>> :=
    map["Off Track" := Some(1), "At Risk" := Some(2), "On Track" := Some(3), "Complete" := Some(4)]

  /** The columns the validator expects: the field columns, then the lead columns. */
  const EXPECTED_COLUMNS: seq<string> := Sources(FIELD_MAPPINGS) + Sources(LEAD_MAPPINGS)

  lemma ExpectedColumnsDistinct()
    ensures |EXPECTED_COLUMNS| == 13 && Distinct(EXPECTED_COLUMNS)
  {
    assert EXPECTED_COLUMNS == [
      "L4 Deliverables", "L4 Priority", "Initiatives (L3)", "Deliverable Status", "Event Phase",
      "Delivery Date", "Key Achievements", "Risks & Issues", "Product Workstream Lead",
      "Engineering Workstream Lead", "Program Workstream Lead", "Design Workstream Lead", "QA Workstream Lead"];
  }

  /** The temporary field a lead column is mapped to. */
  function LeadField(role: string): string {
    LEAD_PREFIX + Lower(role)
  }

  lemma RoleNamesAreLeadMappings()
    ensures Targets(LEAD_MAPPINGS) == ROLES && Distinct(ROLES)
  {
  }

  // ------------------------------------------------------------ transformer configuration

  /** `d[key] = value` on an ordered dictionary: an existing key keeps its
      place, a new key goes last. */
  function Put(mappings: seq<Mapping>, key: string, value: string): (r: seq<Mapping>)
    ensures key !in Sources(mappings) ==> r == mappings + [(key, value)]
  {
    if mappings == [] then [(key, value)]
    else if mappings[0].0 == key then [(key, value)] + mappings[1..]
    else
      assert Sources(mappings) == [mappings[0].0] + Sources(mappings[1..]);
      [mappings[0]] + Put(mappings[1..], key, value)
  }

  /** The lead columns, each mapped to its temporary field. */
  function LeadMappings(leads: seq<Mapping>): seq<Mapping> {
    Map((m: Mapping) => (m.0, LeadField(m.1)), leads)
  }

  lemma SourcesOfLeadMappings(leads: seq<Mapping>)
    ensures Sources(LeadMappings(leads)) == Sources(leads)
  {
  }

  /** A lead column is not among the columns put before it. */
  lemma FreshColumn(base: seq<Mapping>, leads: seq<Mapping>, i: int)
    requires Distinct(Sources(base) + Sources(leads)) && 0 <= i < |leads|
    ensures leads[i].0 !in Sources(base + LeadMappings(leads[..i]))
  {
    var columns := Sources(base) + Sources(leads);
    MapAppend((m: Mapping) => m.0, base, LeadMappings(leads[..i]));
    SourcesOfLeadMappings(leads[..i]);
    assert Sources(base + LeadMappings(leads[..i])) == columns[..|base| + i];
    assert leads[i].0 == columns[|base| + i];
  }

  /** Puts each lead column, mapped to its temporary field, into a copy of
      the base mappings. */
  method PutLeads(base: seq<Mapping>, leads: seq<Mapping>) returns (mappings: seq<Mapping>)
    requires Distinct(Sources(base) + Sources(leads))
    ensures mappings == base + LeadMappings(leads)
  {
    mappings := base;
    var i := 0;
    while i < |leads|
      invariant 0 <= i <= |leads|
      invariant mappings == base + LeadMappings(leads[..i])
    {
      var (column, role) := leads[i];
      FreshColumn(base, leads, i);
      mappings := Put(mappings, column, LeadField(role));
      assert leads[..i + 1] == leads[..i] + [leads[i]];
      i := i + 1;
    }
    assert leads[..i] == leads;
  }

  /** `get_transformer_config`: the field mappings with each lead column put
      in, and the transformations. */
  method GetTransformerConfig(formatDate: Transformation) returns (mappings: seq<Mapping>, transformations: map<string, Transformation>)
    ensures mappings == FIELD_MAPPINGS + LeadMappings(LEAD_MAPPINGS)
    ensures transformations == Transformations(formatDate)
  {
    ExpectedColumnsDistinct();
    mappings := PutLeads(FIELD_MAPPINGS, LEAD_MAPPINGS);
    transformations := Transformations(formatDate);
  }

  // ------------------------------------------------------------ leads

  /** The lead lists of the first roles, read from the temporary fields. */
  function LeadsOf(roles: seq<string>, row: Record): map<string, seq<string>> {
    if roles == [] then map[]
    else
      var n := |roles| - 1;
      var field := LeadField(roles[n]);
      LeadsOf(roles[..n], row)[roles[n] := SplitMultiValueNames(Some(if field in row then row[field] else ""))]
  }

  /** The lists for each role hold the names of its temporary field (none
      when the field is missing), and there is no other key. */
  lemma {:induction false} LeadsOfSpec(roles: seq<string>, row: Record)
    ensures LeadsOf(roles, row).Keys == set r | r in roles
    ensures forall role :: role in roles ==>
      LeadsOf(roles, row)[role] == SplitMultiValueNames(Some(if LeadField(role) in row then row[LeadField(role)] else ""))
  {
    if roles != [] {
      var n := |roles| - 1;
      LeadsOfSpec(roles[..n], row);
      assert roles == roles[..n] + [roles[n]];
      forall role | role in roles[..n] && role != roles[n] ensures role in roles { }
    }
  }

  /** The loop of `parse_leads_from_row` over the given roles. */
  method ReadLeads(roles: seq<string>, row: Record) returns (leads: map<string, seq<string>>)
    ensures leads == LeadsOf(roles, row)
  {
    leads := map[];
    var i := 0;
    while i < |roles|
      invariant 0 <= i <= |roles|
      invariant leads == LeadsOf(roles[..i], row)
    {
      var role := roles[i];
      var field := LeadField(role);
      var value := if field in row then row[field] else "";
      leads := leads[role := SplitMultiValueNames(Some(value))];
      assert roles[..i + 1][..i] == roles[..i];
      i := i + 1;
    }
    assert roles[..i] == roles;
  }

  /** `parse_leads_from_row`: one list per role of the lead mappings. */
  method ParseLeadsFromRow(row: Record) returns (leads: map<string, seq<string>>)
    ensures leads == LeadsOf(ROLES, row)
  {
    RoleNamesAreLeadMappings();
    leads := ReadLeads(Targets(LEAD_MAPPINGS), row);
  }

  /** Exactly the five roles, each with the distinct names of its lead column. */
  lemma LeadsSpec(row: Record)
    ensures LeadsOf(ROLES, row).Keys == set r | r in ROLES
    ensures forall role :: role in LeadsOf(ROLES, row) ==>
      var names := LeadsOf(ROLES, row)[role];
      names == SplitMultiValueNames(Some(if LeadField(role) in row then row[LeadField(role)] else "")) &&
      Distinct(names) && forall k :: 0 <= k < |names| ==> names[k] != []
  {
    LeadsOfSpec(ROLES, row);
    forall role | role in LeadsOf(ROLES, row)
      ensures var names := LeadsOf(ROLES, row)[role];
        Distinct(names) && forall k :: 0 <= k < |names| ==> names[k] != []
    {
      SplitMultiValueNamesShape(Some(if LeadField(role) in row then row[LeadField(role)] else ""));
    }
  }

  // ------------------------------------------------------------ clean-up

  /** A transformed row without its temporary lead fields, with the leads as
      a structured dictionary under `leads`. */
  function Cleaned(row: Record): Deliverable {
    Deliverable(map k | k in row && !StartsWith(k, LEAD_PREFIX) && k != "leads" :: row[k], Some(LeadsOf(ROLES, row)))
  }

  /** `clean_transformed_row`. */
  method CleanTransformedRow(row: Record) returns (cleaned: Deliverable)
    ensures cleaned == Cleaned(row)
  {
    var leads := ParseLeadsFromRow(row);
    var fields := map k | k in row && !StartsWith(k, LEAD_PREFIX) :: row[k];
    cleaned := Deliverable(fields - {"leads"}, Some(leads));
    assert cleaned.fields == Cleaned(row).fields;
  }

  /** No temporary lead field is left, the leads are present, and every other
      field keeps its value; nothing else is added. */
  lemma CleanedSpec(row: Record)
    ensures var d := Cleaned(row);
      (forall k :: k in d.fields ==> !StartsWith(k, LEAD_PREFIX) && k in row && d.fields[k] == row[k]) &&
      (forall k :: k in row && !StartsWith(k, LEAD_PREFIX) && k != "leads" ==> k in d.fields) &&
      d.leads == Some(LeadsOf(ROLES, row))
  {
  }
}
