/**
 * The structural validator of loaded report data: it fails only for empty data
 * or a first row without columns, and otherwise reports missing, unexpected
 * and inconsistent columns as warnings and information.
 */
module Validator {
  import opened Wrappers
  import opened Text
  import opened Seqs
  import opened Transformers

  /** The result dictionary, whose four keys are always present. */
  datatype ValidationResult = ValidationResult(valid: bool, errors: seq<string>, warnings: seq<string>, info: seq<string>)

  /** What a validation message reports; `Message` gives its text. */
  datatype Notice =
    | NoData
    | NoColumns
    | MissingColumns(missing: set<string>)
    | MissingNote
    | UnexpectedColumns(unexpected: set<string>)
    | RowsDiffer(rows: seq<int>)
    | QualityNote

  function Message(n: Notice): string {
    match n
    case NoData => "No data to validate. The data list is empty - cannot generate reports."
    case NoColumns => "Data has no columns. The data structure is broken - cannot generate reports."
    case MissingColumns(missing) => "Missing expected columns: " + Join(SortedElements(missing), ", ")
    case MissingNote => "Report will handle missing data by showing empty values or placeholders."
    case UnexpectedColumns(unexpected) => "Found unexpected columns (will be ignored): " + Join(SortedElements(unexpected), ", ")
    case RowsDiffer(rows) => "Some rows have inconsistent columns. Rows with issues: " + Join(Map(IntToString, rows), ", ")
    case QualityNote => "This may indicate data quality issues in the source."
  }

  // ------------------------------------------------------------ consistency

  /** The 1-based numbers of the rows after the first whose columns differ
      from the first row's. */
  function InconsistentRows(data: seq<Row>): seq<int> {
    if |data| <= 1 then []
    else
      var n := |data| - 1;
      InconsistentRows(data[..n]) + (if data[n].Keys != data[0].Keys then [n + 1] else [])
  }

  /** A row number is listed exactly when it is 2 or more and its row's
      columns differ from the first row's; the numbers ascend. */
  lemma {:induction false} InconsistentRowsSpec(data: seq<Row>)
    ensures forall k :: k in InconsistentRows(data) <==> 2 <= k <= |data| && data[k - 1].Keys != data[0].Keys
    ensures forall i, j :: 0 <= i < j < |InconsistentRows(data)| ==> InconsistentRows(data)[i] < InconsistentRows(data)[j]
  {
    if |data| > 1 {
      var n := |data| - 1;
      var prefix := data[..n];
      var before := InconsistentRows(prefix);
      var last := if data[n].Keys != data[0].Keys then [n + 1] else [];
      assert InconsistentRows(data) == before + last;
      InconsistentRowsSpec(prefix);
      assert prefix[0] == data[0];
      forall k ensures k in before + last <==> 2 <= k <= |data| && data[k - 1].Keys != data[0].Keys {
        if 2 <= k <= n {
          assert prefix[k - 1] == data[k - 1];
        }
      }
      forall i | 0 <= i < |before| ensures before[i] <= n {
        assert before[i] in before;
      }
    }
  }

  /** `_check_column_consistency`. */
  method CheckColumnConsistency(data: seq<Row>) returns (inconsistent: seq<int>)
    ensures inconsistent == InconsistentRows(data)
  {
    if data == [] {
      return [];
    }
    var firstColumns := data[0].Keys;
    inconsistent := [];
    var i := 1;
    while i < |data|
      invariant 1 <= i <= |data|
      invariant inconsistent == InconsistentRows(data[..i])
    {
      assert data[..i + 1][..i] == data[..i];
      assert data[..i + 1][0] == data[0];
      if data[i].Keys != firstColumns {
        inconsistent := inconsistent + [i + 1];
      }
      i := i + 1;
    }
    assert data[..i] == data;
  }

  // ------------------------------------------------------------ validation

  /** The expected columns of the schema: none when it names none. */
  function ExpectedColumns(expected: Option<seq<string>>): set<string> {
    set c | c in expected.GetOr([])
  }

  /** The outcome of validation, as notices. */
  datatype Findings = Findings(valid: bool, errors: seq<Notice>, warnings: seq<Notice>, info: seq<Notice>)

  function Assess(data: seq<Row>, expected: Option<seq<string>>): Findings {
    if data == [] then Findings(false, [NoData], [], [])
    else if data[0] == map[] then Findings(false, [NoColumns], [], [])
    else
      var columns, wanted := data[0].Keys, ExpectedColumns(expected);
      var missing, unexpected := wanted - columns, columns - wanted;
      var rows := InconsistentRows(data);
      Findings(true, [],
        (if missing != {} then [MissingColumns(missing)] else []) +
        (if rows != [] then [RowsDiffer(rows)] else []),
        (if missing != {} then [MissingNote] else []) +
        (if unexpected != {} && wanted != {} then [UnexpectedColumns(unexpected)] else []) +
        (if rows != [] then [QualityNote] else []))
  }

  /** The result dictionary holding the texts of the notices. */
  function Render(f: Findings): ValidationResult {
    ValidationResult(f.valid, Map(Message, f.errors), Map(Message, f.warnings), Map(Message, f.info))
  }

  /** The result dictionary: the notices' texts. */
  function Validation(data: seq<Row>, expected: Option<seq<string>>): ValidationResult {
    Render(Assess(data, expected))
  }

  /** `DataValidator.validate`: collects the notices with early returns for
      the two fatal ones. */
  method Validate(data: seq<Row>, expected: Option<seq<string>>) returns (result: ValidationResult)
    ensures result == Validation(data, expected)
  {
    var f := Findings(true, [], [], []);
    if |data| == 0 {
      f := f.(valid := false, errors := f.errors + [NoData]);
      return Render(f);
    }
    var firstRow := data[0];
    if |firstRow| == 0 {
      f := f.(valid := false, errors := f.errors + [NoColumns]);
      return Render(f);
    }
    var wanted := ExpectedColumns(expected);
    var columns := firstRow.Keys;
    var missing := wanted - columns;
    if missing != {} {
      f := f.(warnings := f.warnings + [MissingColumns(missing)]);
      f := f.(info := f.info + [MissingNote]);
    }
    var unexpected := columns - wanted;
    if unexpected != {} && wanted != {} {
      f := f.(info := f.info + [UnexpectedColumns(unexpected)]);
    }
    if |data| > 1 {
      var rows := CheckColumnConsistency(data);
      if rows != [] {
        f := f.(warnings := f.warnings + [RowsDiffer(rows)]);
        f := f.(info := f.info + [QualityNote]);
      }
    }
    assert f == Assess(data, expected);
    return Render(f);
  }

  /** Validation fails exactly for empty data or a first row without columns,
      and then with one error and nothing else; otherwise there are no errors. */
  lemma ValidationOutcome(data: seq<Row>, expected: Option<seq<string>>)
    ensures var r := Validation(data, expected);
      (r.valid <==> data != [] && data[0] != map[]) &&
      (r.valid <==> r.errors == []) &&
      (!r.valid ==> |r.errors| == 1 && r.warnings == [] && r.info == []) &&
      |r.warnings| == |Assess(data, expected).warnings| && |r.info| == |Assess(data, expected).info|
  {
  }

  /** Missing expected columns give one warning, listing them sorted, and a
      note; none missing gives neither. */
  lemma MissingColumnsReported(data: seq<Row>, expected: Option<seq<string>>)
    requires data != [] && data[0] != map[]
    ensures var f, missing := Assess(data, expected), ExpectedColumns(expected) - data[0].Keys;
      (MissingColumns(missing) in f.warnings <==> missing != {}) &&
      (MissingNote in f.info <==> missing != {}) &&
      (forall n :: n in f.warnings && n.MissingColumns? ==> n == MissingColumns(missing)) &&
      StrictlySorted(SortedElements(missing)) &&
      (forall c :: c in SortedElements(missing) <==> c in expected.GetOr([]) && c !in data[0])
  {
  }

  /** Unexpected columns are only noted, and only when some columns were
      expected: they never give a warning. */
  lemma UnexpectedColumnsNoted(data: seq<Row>, expected: Option<seq<string>>)
    requires data != [] && data[0] != map[]
    ensures var f, wanted := Assess(data, expected), ExpectedColumns(expected);
      var unexpected := data[0].Keys - wanted;
      (UnexpectedColumns(unexpected) in f.info <==> unexpected != {} && wanted != {}) &&
      (forall n :: n in f.warnings ==> !n.UnexpectedColumns?)
  {
  }

  /** Some row number is listed exactly when some later row's columns differ
      from the first row's. */
  lemma SomeRowDiffers(data: seq<Row>)
    ensures InconsistentRows(data) != [] <==> exists i :: 1 <= i < |data| && data[i].Keys != data[0].Keys
  {
    var rows := InconsistentRows(data);
    InconsistentRowsSpec(data);
    if rows != [] {
      assert rows[0] in rows;
      assert data[rows[0] - 1].Keys != data[0].Keys;
    }
    if exists i :: 1 <= i < |data| && data[i].Keys != data[0].Keys {
      var i :| 1 <= i < |data| && data[i].Keys != data[0].Keys;
      assert i + 1 in rows;
    }
  }

  /** Rows whose columns differ from the first row's give one warning naming
      them and a note; consistent data gives neither. */
  lemma InconsistentRowsReported(data: seq<Row>, expected: Option<seq<string>>)
    requires data != [] && data[0] != map[]
    ensures RowsDiffer(InconsistentRows(data)) in Assess(data, expected).warnings <==>
      exists i :: 1 <= i < |data| && data[i].Keys != data[0].Keys
    ensures QualityNote in Assess(data, expected).info <==>
      exists i :: 1 <= i < |data| && data[i].Keys != data[0].Keys
  {
    SomeRowDiffers(data);
  }
}
