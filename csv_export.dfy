/**
  * The batch viewer's CSV export: a header line, one quoted row per schema
  * field in schema order, then a metadata block. Field values have their
  * commas turned into semicolons and their line breaks into spaces.
  */
module CsvExport {
  import opened Js
  import opened Engine

  const Header := "Field ID,Label,Value\n"

  /** `String(value).replace(/,/g, ';').replace(/\n/g, ' ')`. */
  function Clean(v: string): (r: string)
    ensures |r| == |v| && ',' !in r && '\n' !in r
    ensures forall i :: 0 <= i < |v| ==> r[i] == (if v[i] == ',' then ';' else if v[i] == '\n' then ' ' else v[i])
  {
    ReplaceAll(ReplaceAll(v, ',', ';'), '\n', ' ')
  }

  /** `"id","label","value"` and a line break; a missing or empty value is empty. */
  function Row(f: Field, data: Record): string {
    "\"" + f.id + "\",\"" + f.caption + "\",\"" + Clean(Get(data, f.id)) + "\"\n"
  }

  /** The field rows, in schema order. */
  function Rows(schema: Schema, data: Record): string {
    if schema == [] then ""
    else Rows(schema[..|schema| - 1], data) + Row(schema[|schema| - 1], data)
  }

  /** The metadata block after the field rows. */
  function Metadata(data: Record, fileName: string, exportDate: string, beerType: string): string {
    "\n\nMetadata\n"
    + "\"File Name\",\"" + OrElse(fileName, "Unknown") + "\"\n"
    + "\"Export Date\",\"" + exportDate + "\"\n"
    + "\"Beer Type\",\"" + ToUpper(beerType) + "\"\n"
    + "\"Batch Number\",\"" + Pick(data, ["field_002", "me_so"], "Unknown") + "\"\n"
    + "\"Tank Number\",\"" + Pick(data, ["field_003", "tank_so"], "Unknown") + "\"\n"
  }

  /**
    * The text `exportToExcel` writes; `exportDate` is the clock's
    * `toLocaleString` text.
    */
  method ExportCsv(schema: Schema, data: Record, fileName: string, exportDate: string, beerType: string)
    returns (csv: string)
    ensures csv == Header + Rows(schema, data) + Metadata(data, fileName, exportDate, beerType)
  {
    var rows := "";
    for i := 0 to |schema|
      invariant rows == Rows(schema[..i], data)
    {
      RowsNext(schema, data, i);
      rows := rows + Row(schema[i], data);
    }
    assert schema[..|schema|] == schema;
    csv := Header + rows + Metadata(data, fileName, exportDate, beerType);
  }

  lemma RowsNext(schema: Schema, data: Record, i: nat)
    requires i < |schema|
    ensures Rows(schema[..i + 1], data) == Rows(schema[..i], data) + Row(schema[i], data)
  {
    assert schema[..i + 1][..i] == schema[..i];
  }

  /** The number of times `c` occurs in `s`. */
  function Occurrences(s: string, c: char): nat {
    if s == [] then 0 else Occurrences(s[..|s| - 1], c) + (if s[|s| - 1] == c then 1 else 0)
  }

  lemma {:induction false} OccurrencesAppend(a: string, b: string, c: char)
    ensures Occurrences(a + b, c) == Occurrences(a, c) + Occurrences(b, c)
    decreases |b|
  {
    if b == [] {
      assert a + b == a;
    } else {
      assert (a + b)[..|a + b| - 1] == a + b[..|b| - 1];
      OccurrencesAppend(a, b[..|b| - 1], c);
    }
  }

  lemma {:induction false} NoOccurrences(s: string, c: char)
    requires c !in s
    ensures Occurrences(s, c) == 0
  {
    if s != [] {
      assert c !in s[..|s| - 1];
      NoOccurrences(s[..|s| - 1], c);
    }
  }

  /** One line per field: a row holds a single line break when id and label have none. */
  lemma RowLines(f: Field, data: Record)
    requires '\n' !in f.id && '\n' !in f.caption
    ensures Occurrences(Row(f, data), '\n') == 1
  {
    var v := Clean(Get(data, f.id));
    var front := "\"" + f.id + "\",\"" + f.caption + "\",\"" + v + "\"";
    assert Row(f, data) == front + "\n";
    assert '\n' !in front;
    NoOccurrences(front, '\n');
    OccurrencesAppend(front, "\n", '\n');
  }

  /** When no id or label holds a line break, the field rows are exactly one line per field. */
  lemma {:induction false} RowsLines(schema: Schema, data: Record)
    requires forall i :: 0 <= i < |schema| ==> '\n' !in schema[i].id && '\n' !in schema[i].caption
    ensures Occurrences(Rows(schema, data), '\n') == |schema|
  {
    if schema != [] {
      var init := schema[..|schema| - 1];
      RowsLines(init, data);
      RowLines(schema[|schema| - 1], data);
      OccurrencesAppend(Rows(init, data), Row(schema[|schema| - 1], data), '\n');
    }
  }
}
