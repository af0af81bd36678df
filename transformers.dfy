/**
 * The generic data transformers: splitting multi-person cells, turning line
 * breaks into `<br>`, and the mapping-driven row transformer.
 * A loaded cell is a string, or `None` for an empty spreadsheet cell.
 */
module Transformers {
  import opened Wrappers
  import opened Text
  import opened Seqs

  type Cell = Option<string>

  /** A loaded row: cells by source column name. */
  type Row = map<string, Cell>

  /** A transformed row: text by target field name. */
  type Record = map<string, string>

  /** Python truthiness of a cell: `None` and `""` are falsy. */
  predicate Falsy(value: Cell) {
    value == None || value == Some("")
  }

  // ------------------------------------------------------------ names

  predicate Named(name: string) {
    name != []
  }

  /** The stripped, non-empty comma-separated pieces of a cell, in order. */
  function Pieces(s: string): seq<string> {
    Filter(Named, Map(Strip, Split(s, ',')))
  }

  /** `split_multi_value_names`: the distinct names of a comma-separated cell. */
  function SplitMultiValueNames(value: Cell): seq<string> {
    match value
    case None => []
    case Some(s) => if s == [] then [] else Dedup(Pieces(s))
  }

  /** Every piece is non-empty, holds no comma, and has no whitespace at
      either end. */
  lemma PieceShape(s: string, x: string)
    requires x in Pieces(s)
    ensures x != [] && ',' !in x && !IsSpace(x[0]) && !IsSpace(x[|x| - 1])
  {
    var split := Split(s, ',');
    var stripped := Map(Strip, split);
    assert x in stripped;
    var i :| 0 <= i < |stripped| && stripped[i] == x;
    assert split[i] in split;
    StripSpec(split[i]);
  }

  /** The distinct pieces are non-empty, comma-free and stripped. */
  lemma DistinctPiecesShape(s: string)
    ensures Distinct(Dedup(Pieces(s)))
    ensures forall name :: name in Dedup(Pieces(s)) ==>
      name != [] && ',' !in name && !IsSpace(name[0]) && !IsSpace(name[|name| - 1])
  {
    DedupMembers(Pieces(s));
    forall name | name in Dedup(Pieces(s))
      ensures name != [] && ',' !in name && !IsSpace(name[0]) && !IsSpace(name[|name| - 1])
    {
      PieceShape(s, name);
    }
  }

  /** The names are distinct, non-empty, comma-free and stripped; `None` and
      `""` give no names. */
  lemma SplitMultiValueNamesShape(value: Cell)
    ensures Falsy(value) ==> SplitMultiValueNames(value) == []
    ensures var names := SplitMultiValueNames(value);
      Distinct(names) &&
      forall k :: 0 <= k < |names| ==>
        names[k] != [] && ',' !in names[k] && !IsSpace(names[k][0]) && !IsSpace(names[k][|names[k]| - 1])
  {
    if value.Some? && value.value != [] {
      var names := Dedup(Pieces(value.value));
      DistinctPiecesShape(value.value);
      assert forall k :: 0 <= k < |names| ==> names[k] in names;
    }
  }

  /** The names are exactly the non-blank pieces, each listed once in the
      order of its first occurrence. */
  lemma SplitMultiValueNamesOrder(value: Cell)
    ensures value.Some? ==> var names, pieces := SplitMultiValueNames(value), Pieces(value.value);
      (forall name :: name in names <==> name in pieces) &&
      forall i, j :: 0 <= i < j < |names| ==> FirstIndex(pieces, names[i]) < FirstIndex(pieces, names[j])
  {
    if value.Some? && value.value != [] {
      DedupSpec(Pieces(value.value));
    }
  }

  lemma SplitThree(a: string, b: string)
    requires ',' !in a && ',' !in b
    ensures Split(a + ", " + b + ", " + a, ',') == [a, " " + b, " " + a]
  {
    var b', a' := " " + b, " " + a;
    assert a + ", " + b + ", " + a == a + [','] + (b' + [','] + a');
    SplitConcat(a, b' + [','] + a', ',');
    SplitConcat(b', a', ',');
    SplitNoSep(a, ',');
    assert ',' !in b' && ',' !in a';
    SplitNoSep(b', ',');
    SplitNoSep(a', ',');
  }

  lemma StripSpaced(x: string)
    requires x != [] && !IsSpace(x[0]) && !IsSpace(x[|x| - 1])
    ensures Strip(" " + x) == x
  {
    assert (" " + x)[1..] == x;
    StripUnchanged(x);
  }

  /** A name repeated in the cell is listed once, at its first place:
      "a, b, a" gives [a, b]. */
  lemma RepeatedNameKeptOnce(a: string, b: string)
    requires a != [] && ',' !in a && !IsSpace(a[0]) && !IsSpace(a[|a| - 1])
    requires b != [] && ',' !in b && !IsSpace(b[0]) && !IsSpace(b[|b| - 1])
    requires a != b
    ensures SplitMultiValueNames(Some(a + ", " + b + ", " + a)) == [a, b]
  {
    var split := [a, " " + b, " " + a];
    SplitThree(a, b);
    StripUnchanged(a);
    StripSpaced(b);
    StripSpaced(a);
    assert Map(Strip, split) == [a, b, a] by {
      assert split[..2][..1] == [a];
      assert split[..2] == [a, " " + b];
    }
    var stripped := [a, b, a];
    assert stripped[..2][..1] == [a];
    assert stripped[..2] == [a, b];
    assert [a][..0] == [];
    assert Filter(Named, [a]) == [a];
    assert Filter(Named, [a, b]) == [a, b];
    assert Filter(Named, stripped) == stripped;
    assert Dedup([a]) == [a];
    assert Dedup([a, b]) == [a, b];
    assert Dedup(stripped) == [a, b];
  }

  // ------------------------------------------------------------ line breaks

  const BR := "<br>"

  /** The three replacements, Windows endings first. */
  function BreakLines(text: string): string {
    Replace(Replace(Replace(text, "\r\n", BR), "\n", BR), "\r", BR)
  }

  /** `preserve_line_breaks`: strip, then turn each line ending into `<br>`. */
  function PreserveLineBreaks(value: Cell): string {
    match value
    case None => ""
    case Some(s) => if s == [] then "" else BreakLines(Strip(s))
  }

  /** No line-break character survives the replacements. */
  lemma BreakLinesRemovesEndings(text: string)
    ensures '\n' !in BreakLines(text) && '\r' !in BreakLines(text)
  {
    var one := Replace(text, "\r\n", BR);
    var two := Replace(one, "\n", BR);
    ReplaceCharRemoves(one, '\n', BR);
    ReplaceCharKeeps(two, '\r', BR, '\n');
    ReplaceCharRemoves(two, '\r', BR);
  }

  /** Text without line-break characters is left alone. */
  lemma {:induction false} BreakLinesPlain(text: string)
    requires '\r' !in text && '\n' !in text
    ensures BreakLines(text) == text
  {
    ReplaceSkip(text, [], "\r\n", BR);
    assert text + [] == text;
    ReplaceCharAbsent(text, '\n', BR);
    ReplaceCharAbsent(text, '\r', BR);
  }

  lemma CrLfIsOneBreak(line: string, rest: string)
    requires '\r' !in line && '\n' !in line
    ensures BreakLines(line + "\r\n" + rest) == line + BR + BreakLines(rest)
  {
    var ending := "\r\n";
    var one := Replace(rest, "\r\n", BR);
    var two := Replace(one, "\n", BR);
    ReplaceSkip(line, ending + rest, "\r\n", BR);
    assert line + ending + rest == line + (ending + rest);
    assert StartsWith(ending + rest, "\r\n");
    assert (ending + rest)[2..] == rest;
    assert Replace(ending + rest, "\r\n", BR) == BR + one;
    ReplaceSkip(line, BR + one, "\n", BR);
    ReplaceSkip(BR, one, "\n", BR);
    ReplaceSkip(line, BR + two, "\r", BR);
    ReplaceSkip(BR, two, "\r", BR);
  }

  lemma LfIsOneBreak(line: string, rest: string)
    requires '\r' !in line && '\n' !in line
    ensures BreakLines(line + "\n" + rest) == line + BR + BreakLines(rest)
  {
    var ending := "\n";
    var one := Replace(rest, "\r\n", BR);
    var two := Replace(one, "\n", BR);
    ReplaceSkip(line, ending + rest, "\r\n", BR);
    assert line + ending + rest == line + (ending + rest);
    assert (ending + rest)[1..] == rest;
    assert Replace(ending + rest, "\r\n", BR) == "\n" + one;
    ReplaceSkip(line, "\n" + one, "\n", BR);
    assert ("\n" + one)[1..] == one;
    ReplaceSkip(line, BR + two, "\r", BR);
    ReplaceSkip(BR, two, "\r", BR);
  }

  lemma CrIsOneBreak(line: string, rest: string)
    requires '\r' !in line && '\n' !in line
    requires rest == [] || rest[0] != '\n'
    ensures BreakLines(line + "\r" + rest) == line + BR + BreakLines(rest)
  {
    var ending := "\r";
    var one := Replace(rest, "\r\n", BR);
    var two := Replace(one, "\n", BR);
    ReplaceSkip(line, ending + rest, "\r\n", BR);
    assert line + ending + rest == line + (ending + rest);
    assert !StartsWith(ending + rest, "\r\n");
    assert (ending + rest)[1..] == rest;
    assert Replace(ending + rest, "\r\n", BR) == "\r" + one;
    ReplaceSkip(line, "\r" + one, "\n", BR);
    ReplaceSkip("\r", one, "\n", BR);
    ReplaceSkip(line, "\r" + two, "\r", BR);
    assert ("\r" + two)[1..] == two;
  }

  /** A line ending (`\r\n`, `\n`, or a `\r` not followed by `\n`) after a
      plain line becomes exactly one `<br>`. */
  lemma LineEndingIsOneBreak(line: string, ending: string, rest: string)
    requires '\r' !in line && '\n' !in line
    requires ending == "\r\n" || ending == "\n" || (ending == "\r" && (rest == [] || rest[0] != '\n'))
    ensures BreakLines(line + ending + rest) == line + BR + BreakLines(rest)
  {
    if ending == "\r\n" {
      CrLfIsOneBreak(line, rest);
    } else if ending == "\n" {
      LfIsOneBreak(line, rest);
    } else {
      CrIsOneBreak(line, rest);
    }
  }

  /** The replacements keep a first and a last character that are not line
      breaks. */
  lemma BreakLinesEnds(text: string)
    requires text != [] && text[0] != '\r' && text[0] != '\n'
    requires text[|text| - 1] != '\r' && text[|text| - 1] != '\n'
    ensures var r := BreakLines(text);
      r != [] && r[0] == text[0] && r[|r| - 1] == text[|text| - 1]
  {
    var first, last := text[0], text[|text| - 1];
    if |text| == 1 {
      BreakLinesPlain(text);
    } else {
      var middle := text[1..|text| - 1];
      assert text == [first] + middle + [last];
      var one := Replace(middle, "\r\n", BR);
      var two := Replace(one, "\n", BR);
      var three := Replace(two, "\r", BR);
      assert text == [first] + (middle + [last]);
      ReplaceSkip([first], middle + [last], "\r\n", BR);
      ReplaceAppend(middle, last, "\r\n", BR);
      assert Replace(text, "\r\n", BR) == [first] + (one + [last]);
      ReplaceSkip([first], one + [last], "\n", BR);
      ReplaceAppend(one, last, "\n", BR);
      assert Replace([first] + (one + [last]), "\n", BR) == [first] + (two + [last]);
      ReplaceSkip([first], two + [last], "\r", BR);
      ReplaceAppend(two, last, "\r", BR);
      assert Replace([first] + (two + [last]), "\r", BR) == [first] + (three + [last]);
      assert BreakLines(text) == [first] + three + [last];
    }
  }

  /** The output has no line-break characters, and is empty exactly when the
      input is missing or blank; otherwise it starts and ends with the first
      and last non-whitespace characters of the input. */
  lemma PreserveLineBreaksSpec(value: Cell)
    ensures var r := PreserveLineBreaks(value);
      '\n' !in r && '\r' !in r &&
      (Falsy(value) ==> r == []) &&
      (value.Some? && Strip(value.value) != [] ==>
        var t := Strip(value.value);
        r != [] && r[0] == t[0] && r[|r| - 1] == t[|t| - 1] && !IsSpace(r[0]) && !IsSpace(r[|r| - 1]))
  {
    if value.Some? && value.value != [] {
      var t := Strip(value.value);
      BreakLinesRemovesEndings(t);
      if t != [] {
        StripSpec(value.value);
        BreakLinesEnds(t);
      }
    }
  }

  // ------------------------------------------------------------ rows

  /** One entry of the ordered `field_mappings` dictionary: source column, target field. */
  type Mapping = (string, string)

  /** A configured transformation of a raw cell. */
  type Transformation = Cell -> string

  /** The raw cell a mapping reads; a missing column reads as `""`. */
  function Raw(row: Row, source: string): Cell {
    if source in row then row[source] else Some("")
  }

  /** The text one mapping contributes: the configured transformation of the
      raw cell, or by default the stripped string (`None` gives `""`). */
  function Converted(transformations: map<string, Transformation>, row: Row, mapping: Mapping): string {
    var value := Raw(row, mapping.0);
    if mapping.1 in transformations then transformations[mapping.1](value)
    else match value
      case None => ""
      case Some(s) => Strip(s)
  }

  /** The transformed row after the first mappings, each one setting its target. */
  function Transformed(mappings: seq<Mapping>, transformations: map<string, Transformation>, row: Row): (r: Record)
    ensures r.Keys == set m | m in mappings :: m.1
  {
    if mappings == [] then map[]
    else
      var n := |mappings| - 1;
      Transformed(mappings[..n], transformations, row)[mappings[n].1 := Converted(transformations, row, mappings[n])]
  }

  /** Each target holds the value of the last mapping onto it. */
  lemma {:induction false} LastMappingWins(mappings: seq<Mapping>, transformations: map<string, Transformation>, row: Row, i: int)
    requires 0 <= i < |mappings|
    requires forall j :: i < j < |mappings| ==> mappings[j].1 != mappings[i].1
    ensures Transformed(mappings, transformations, row)[mappings[i].1] == Converted(transformations, row, mappings[i])
  {
    var n := |mappings| - 1;
    if i < n {
      LastMappingWins(mappings[..n], transformations, row, i);
    }
  }

  /** With distinct targets, each target's value depends on its own mapping
      only: a missing column or `None` gives `""` and a string its stripped
      form unless a transformation is configured, which then sees the raw cell. */
  lemma TransformedValue(mappings: seq<Mapping>, transformations: map<string, Transformation>, row: Row, i: int)
    requires 0 <= i < |mappings|
    requires forall j :: i < j < |mappings| ==> mappings[j].1 != mappings[i].1
    ensures var (source, target) := mappings[i];
      var v := Transformed(mappings, transformations, row)[target];
      (target in transformations ==> v == transformations[target](if source in row then row[source] else Some(""))) &&
      (target !in transformations ==>
        (source !in row ==> v == "") &&
        (source in row && row[source] == None ==> v == "") &&
        (source in row && row[source].Some? ==> v == Strip(row[source].value)))
  {
    LastMappingWins(mappings, transformations, row, i);
  }

  /** `DataTransformer`: maps source columns to target fields. */
  class DataTransformer {
    const fieldMappings: seq<Mapping>
    const transformations: map<string, Transformation>

    /** A missing transformation table is an empty one. */
    constructor(fieldMappings: seq<Mapping>, transformations: Option<map<string, Transformation>>)
      ensures this.fieldMappings == fieldMappings
      ensures this.transformations == transformations.GetOr(map[])
    {
      this.fieldMappings := fieldMappings;
      this.transformations := transformations.GetOr(map[]);
    }

    /** `transform_row`: fills the transformed row mapping by mapping. */
    method TransformRow(row: Row) returns (transformed: Record)
      ensures transformed == Transformed(fieldMappings, transformations, row)
    {
      transformed := map[];
      var i := 0;
      while i < |fieldMappings|
        invariant 0 <= i <= |fieldMappings|
        invariant transformed == Transformed(fieldMappings[..i], transformations, row)
      {
        var (source, target) := fieldMappings[i];
        var value := if source in row then row[source] else Some("");
        var text: string;
        if target in transformations {
          text := transformations[target](value);
        } else if value == None {
          text := "";
        } else {
          text := Strip(value.value);
        }
        assert text == Converted(transformations, row, fieldMappings[i]);
        assert fieldMappings[..i + 1][..i] == fieldMappings[..i];
        transformed := transformed[target := text];
        i := i + 1;
      }
      assert fieldMappings[..i] == fieldMappings;
    }

    /** `transform`: every row transformed, in order. */
    method Transform(data: seq<Row>) returns (rows: seq<Record>)
      ensures |rows| == |data|
      ensures forall k :: 0 <= k < |data| ==> rows[k] == Transformed(fieldMappings, transformations, data[k])
    {
      rows := [];
      var i := 0;
      while i < |data|
        invariant 0 <= i <= |data|
        invariant |rows| == i
        invariant forall k :: 0 <= k < i ==> rows[k] == Transformed(fieldMappings, transformations, data[k])
      {
        var r := TransformRow(data[i]);
        rows := rows + [r];
        i := i + 1;
      }
    }
  }
}
