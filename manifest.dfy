/**
  The `assets_from_file` manifest: text whose lines (after trimming the whole
  text) are separated by '\n' and whose columns are separated by '\t'. Every
  line must have exactly three columns, path, name and content-type, or the
  whole manifest is rejected.
 */
module Manifest {
  import opened Wrappers
  import opened Strings

  /** One asset to upload: the source's `{ path, name, 'content-type' }` record. */
  datatype Asset = Asset(path: string, name: string, contentType: string)

  const LineSeparator: char := '\n'
  const ColumnSeparator: char := '\t'

  /** The message of the Error thrown for a manifest with a line that is not 3 columns. */
  const BrokenManifest: string := "Assets from file seem broken, it must contain 3 columns for every line"

  /** The lines of the manifest: the whole text trimmed, then split at every newline. */
  function Lines(text: string): seq<string>
  {
    Split(Trim(text), LineSeparator)
  }

  /** The columns of one line: the line split at every tab, fields left untrimmed. */
  function Columns(line: string): seq<string>
  {
    Split(line, ColumnSeparator)
  }

  /** The columns of every line, in line order. */
  function Rows(lines: seq<string>): seq<seq<string>>
  {
    seq(|lines|, i requires 0 <= i < |lines| => Columns(lines[i]))
  }

  /** The all-or-nothing check: every row has exactly three columns. */
  predicate WellFormed(rows: seq<seq<string>>)
  {
    forall i :: 0 <= i < |rows| ==> |rows[i]| == 3
  }

  /** The descriptor a 3-column row maps to, by position. */
  function AssetOfRow(row: seq<string>): Asset
    requires |row| == 3
  {
    Asset(row[0], row[1], row[2])
  }

  /** The descriptors of a table whose rows all have three fields, in row order. */
  function AssetsOfRows(rows: seq<seq<string>>): seq<Asset>
    requires WellFormed(rows)
  {
    seq(|rows|, i requires 0 <= i < |rows| => AssetOfRow(rows[i]))
  }

  /**
    The whole manifest pipeline: trim, split into lines, split each line into
    columns, reject unless every line has 3 columns, then map the rows to
    descriptors in line order.
   */
  function ParseManifest(text: string): (r: Result<seq<Asset>, string>)
    ensures r.Failure? <==> exists i :: 0 <= i < |Lines(text)| && |Columns(Lines(text)[i])| != 3
    ensures r.Failure? ==> r.error == BrokenManifest
    ensures r.Success? ==> |r.value| == |Lines(text)| >= 1
    ensures r.Success? ==> forall i :: 0 <= i < |r.value| ==>
              && r.value[i].path == Columns(Lines(text)[i])[0]
              && r.value[i].name == Columns(Lines(text)[i])[1]
              && r.value[i].contentType == Columns(Lines(text)[i])[2]
  {
    var rows := Rows(Lines(text));
    assert forall i :: 0 <= i < |rows| ==> rows[i] == Columns(Lines(text)[i]);
    if WellFormed(rows) then
      Success(AssetsOfRows(rows))
    else
      Failure(BrokenManifest)
  }

  /** A single trimmed line that is not 3 columns rejects the whole manifest. */
  lemma BadLineRejects(text: string, i: nat)
    requires i < |Lines(text)| && |Columns(Lines(text)[i])| != 3
    ensures ParseManifest(text) == Failure(BrokenManifest)
  {
  }

  /** An empty or whitespace-only manifest trims to one empty line, which has one column: rejected. */
  lemma BlankManifestRejected(text: string)
    requires AllWhitespace(text)
    ensures ParseManifest(text) == Failure(BrokenManifest)
  {
    assert Lines(text) == [[]];
    assert |Columns(Lines(text)[0])| == 1;
  }

  /** A manifest is accepted exactly when every trimmed line holds exactly two tabs. */
  lemma AcceptedIffTwoTabsPerLine(text: string)
    ensures ParseManifest(text).Success? <==>
            forall i :: 0 <= i < |Lines(text)| ==> multiset(Lines(text)[i])[ColumnSeparator] == 2
  {
    forall i | 0 <= i < |Lines(text)| {
      SplitFieldCount(Lines(text)[i], ColumnSeparator);
    }
  }

  /** The text of a table of fields: fields joined by tabs, rows joined by newlines. */
  function TableText(rows: seq<seq<string>>): string
  {
    Join(RowLines(rows), LineSeparator)
  }

  function RowLines(rows: seq<seq<string>>): seq<string>
  {
    seq(|rows|, i requires 0 <= i < |rows| => Join(rows[i], ColumnSeparator))
  }

  /** A field a manifest can hold: no tab and no newline. */
  predicate FieldOk(f: string)
  {
    ColumnSeparator !in f && LineSeparator !in f
  }

  /**
    A table a manifest text can express: at least one row, every row with at
    least one field, no field holding a tab or a newline, and no whitespace
    at the two ends of the whole text (which trim would remove).
   */
  predicate TableOk(rows: seq<seq<string>>)
  {
    && |rows| >= 1
    && (forall i :: 0 <= i < |rows| ==> |rows[i]| >= 1)
    && (forall i, j :: 0 <= i < |rows| && 0 <= j < |rows[i]| ==> FieldOk(rows[i][j]))
    && rows[0][0] != [] && !IsWhitespace(rows[0][0][0])
    && var last := rows[|rows| - 1][|rows[|rows| - 1]| - 1];
       last != [] && !IsWhitespace(last[|last| - 1])
  }

  /** The text of an expressible table has the table's rows as lines and their fields as columns. */
  lemma TableLines(rows: seq<seq<string>>)
    requires TableOk(rows)
    ensures Lines(TableText(rows)) == RowLines(rows)
    ensures forall i :: 0 <= i < |rows| ==> Columns(RowLines(rows)[i]) == rows[i]
  {
    var lines := RowLines(rows);
    forall i | 0 <= i < |rows|
      ensures Columns(lines[i]) == rows[i]
      ensures LineSeparator !in lines[i]
    {
      SplitJoin(rows[i], ColumnSeparator);
      JoinAvoids(rows[i], ColumnSeparator, LineSeparator);
    }
    var first, final := rows[0], rows[|rows| - 1];
    JoinFirst(first, ColumnSeparator);
    JoinFirst(lines, LineSeparator);
    JoinLast(final, ColumnSeparator);
    JoinLast(lines, LineSeparator);
    TrimOfTrimmed(TableText(rows));
    SplitJoin(lines, LineSeparator);
  }

  /**
    Parsing the text of an expressible table: accepted exactly when every
    row has three fields, and then each row is one descriptor, in order.
   */
  lemma ParseTable(rows: seq<seq<string>>)
    requires TableOk(rows)
    ensures WellFormed(rows) ==> ParseManifest(TableText(rows)) == Success(AssetsOfRows(rows))
    ensures !WellFormed(rows) ==> ParseManifest(TableText(rows)) == Failure(BrokenManifest)
  {
    TableLines(rows);
    if WellFormed(rows) {
      ParseWellFormedTable(rows);
    } else {
      var i :| 0 <= i < |rows| && |rows[i]| != 3;
      assert |Columns(Lines(TableText(rows))[i])| != 3;
    }
  }

  lemma ParseWellFormedTable(rows: seq<seq<string>>)
    requires TableOk(rows) && WellFormed(rows)
    requires Lines(TableText(rows)) == RowLines(rows)
    requires forall i :: 0 <= i < |rows| ==> Columns(RowLines(rows)[i]) == rows[i]
    ensures ParseManifest(TableText(rows)) == Success(AssetsOfRows(rows))
  {
    var text := TableText(rows);
    var r := ParseManifest(text);
    assert forall i :: 0 <= i < |rows| ==> Columns(Lines(text)[i]) == rows[i];
    assert r.Success?;
    assert r.value == AssetsOfRows(rows);
  }

  /** The row of fields of one asset. */
  function RowOf(a: Asset): seq<string>
  {
    [a.path, a.name, a.contentType]
  }

  /** A manifest listing the given assets, one line each. */
  function Render(assets: seq<Asset>): string
  {
    TableText(seq(|assets|, i requires 0 <= i < |assets| => RowOf(assets[i])))
  }

  /** Assets a manifest can express: their table of fields is expressible. */
  predicate Expressible(assets: seq<Asset>)
  {
    TableOk(seq(|assets|, i requires 0 <= i < |assets| => RowOf(assets[i])))
  }

  /** Parsing the rendering of expressible assets gives back exactly those assets. */
  lemma ParseRender(assets: seq<Asset>)
    requires Expressible(assets)
    ensures ParseManifest(Render(assets)) == Success(assets)
  {
    var rows := seq(|assets|, i requires 0 <= i < |assets| => RowOf(assets[i]));
    ParseTable(rows);
    assert WellFormed(rows);
    assert ParseManifest(Render(assets)).value == assets;
  }

  /** A 3-column line is the rendering of the descriptor built from its columns. */
  lemma RowOfColumns(line: string)
    requires |Columns(line)| == 3
    ensures Join(RowOf(AssetOfRow(Columns(line))), ColumnSeparator) == line
  {
    var cols := Columns(line);
    assert RowOf(AssetOfRow(cols)) == cols;
    JoinSplit(line, ColumnSeparator);
  }

  /** Rendering what a manifest parsed to gives back the trimmed manifest text. */
  lemma RenderParse(text: string)
    requires ParseManifest(text).Success?
    ensures Render(ParseManifest(text).value) == Trim(text)
  {
    var assets := ParseManifest(text).value;
    var lines := Lines(text);
    var rows := seq(|assets|, i requires 0 <= i < |assets| => RowOf(assets[i]));
    forall i | 0 <= i < |assets|
      ensures RowLines(rows)[i] == lines[i]
    {
      RowOfColumns(lines[i]);
      assert AssetOfRow(Columns(lines[i])) == assets[i];
    }
    assert RowLines(rows) == lines;
    JoinSplit(Trim(text), LineSeparator);
  }
}
