/**
  Concrete scenarios: the manifest and upload of the repository's multi-asset
  test, and edge cases of the manifest format.
 */
module Scenarios {
  import opened Wrappers
  import opened Strings
  import opened Manifest
  import opened UploadReleaseAsset
  import opened RunProperties

  /** Line n of the repository's multi-asset test manifest. */
  function TestLine(n: char): string
  {
    "asset_path_" + [n] + "\t" + "asset_name_" + [n] + "\t" + "asset_content_type_" + [n]
  }

  /** The test's manifest: three lines, with no newline after the last. */
  function TestManifest(): string
  {
    TestLine('1') + "\n" + TestLine('2') + "\n" + TestLine('3')
  }

  /** The descriptor line n of the test manifest stands for. */
  function TestAsset(n: char): Asset
  {
    Asset("asset_path_" + [n], "asset_name_" + [n], "asset_content_type_" + [n])
  }

  /** The rows of fields of the test's three descriptors. */
  function TestRows(): seq<seq<string>>
  {
    [RowOf(TestAsset('1')), RowOf(TestAsset('2')), RowOf(TestAsset('3'))]
  }

  lemma TestAssetLine(n: char)
    ensures Join(RowOf(TestAsset(n)), ColumnSeparator) == TestLine(n)
  {
    var a := TestAsset(n);
    JoinTriple(a.path, a.name, a.contentType, ColumnSeparator);
  }

  lemma TestAssetsRender()
    ensures Render([TestAsset('1'), TestAsset('2'), TestAsset('3')]) == TestManifest()
  {
    var assets := [TestAsset('1'), TestAsset('2'), TestAsset('3')];
    assert seq(|assets|, i requires 0 <= i < |assets| => RowOf(assets[i])) == TestRows();
    TestAssetLine('1');
    TestAssetLine('2');
    TestAssetLine('3');
    assert RowLines(TestRows()) == [TestLine('1'), TestLine('2'), TestLine('3')];
    JoinTriple(TestLine('1'), TestLine('2'), TestLine('3'), LineSeparator);
  }

  lemma TestFieldsOk(n: char)
    requires n != ColumnSeparator && n != LineSeparator
    ensures forall j :: 0 <= j < 3 ==> FieldOk(RowOf(TestAsset(n))[j])
  {
    var a := TestAsset(n);
    assert forall k :: 0 <= k < |a.path| ==> a.path[k] != ColumnSeparator && a.path[k] != LineSeparator;
    assert forall k :: 0 <= k < |a.name| ==> a.name[k] != ColumnSeparator && a.name[k] != LineSeparator;
    assert forall k :: 0 <= k < |a.contentType| ==> a.contentType[k] != ColumnSeparator && a.contentType[k] != LineSeparator;
  }

  lemma TestAssetsExpressible()
    ensures Expressible([TestAsset('1'), TestAsset('2'), TestAsset('3')])
  {
    var assets := [TestAsset('1'), TestAsset('2'), TestAsset('3')];
    var rows := TestRows();
    assert seq(|assets|, i requires 0 <= i < |assets| => RowOf(assets[i])) == rows;
    TestFieldsOk('1');
    TestFieldsOk('2');
    TestFieldsOk('3');
    assert rows[0][0][0] == 'a';
    assert rows[2][2][|rows[2][2]| - 1] == '3';
  }

  /** The test's three-line manifest parses to three descriptors, in line order. */
  lemma TestManifestParses()
    ensures ParseManifest(TestManifest()) == Success([TestAsset('1'), TestAsset('2'), TestAsset('3')])
  {
    TestAssetsRender();
    TestAssetsExpressible();
    ParseRender([TestAsset('1'), TestAsset('2'), TestAsset('3')]);
  }

  /**
    A manifest with "\r\n" line endings: the carriage return stays in the
    last field of every line but the last, as only the whole text is trimmed.
   */
  lemma CarriageReturnKept(path: string, name: string, contentType: string, next: Asset)
    requires TableOk([[path, name, contentType + "\r"], RowOf(next)])
    ensures ParseManifest(Join([path, name, contentType], ColumnSeparator) + "\r\n" + Join(RowOf(next), ColumnSeparator))
            == Success([Asset(path, name, contentType + "\r"), next])
  {
    var rows := [[path, name, contentType + "\r"], RowOf(next)];
    var line := Join([path, name, contentType], ColumnSeparator);
    JoinTriple(path, name, contentType, ColumnSeparator);
    JoinTriple(path, name, contentType + "\r", ColumnSeparator);
    assert Join(rows[0], ColumnSeparator) == line + "\r";
    assert RowLines(rows) == [line + "\r", Join(RowOf(next), ColumnSeparator)];
    JoinPair(line + "\r", Join(RowOf(next), ColumnSeparator), LineSeparator);
    assert TableText(rows) == line + "\r\n" + Join(RowOf(next), ColumnSeparator);
    ParseTable(rows);
    assert WellFormed(rows);
    assert AssetsOfRows(rows) == [Asset(path, name, contentType + "\r"), next];
  }

  /** An empty middle column is accepted: nothing checks that fields are non-empty. */
  lemma EmptyFieldAccepted(path: string, contentType: string)
    requires TableOk([[path, "", contentType]])
    ensures ParseManifest(Join([path, "", contentType], ColumnSeparator)) == Success([Asset(path, "", contentType)])
  {
    var rows := [[path, "", contentType]];
    assert RowLines(rows) == [Join(rows[0], ColumnSeparator)];
    ParseTable(rows);
    assert WellFormed(rows);
    assert AssetsOfRows(rows) == [Asset(path, "", contentType)];
  }

  /** A line with an extra tab has four columns, and the manifest is rejected. */
  lemma ExtraTabRejected(fields: seq<string>)
    requires |fields| == 4 && TableOk([fields])
    ensures ParseManifest(Join(fields, ColumnSeparator)) == Failure(BrokenManifest)
  {
    var rows := [fields];
    assert RowLines(rows) == [Join(fields, ColumnSeparator)];
    ParseTable(rows);
    assert !WellFormed(rows) by { assert |rows[0]| == 4; }
  }

  /**
    A tab after the last field is whitespace to trim, so it is removed with
    the rest of the text's end and the line keeps three columns.
   */
  lemma TrailingTabTrimmed(path: string, name: string, contentType: string)
    requires TableOk([[path, name, contentType]])
    ensures ParseManifest(Join([path, name, contentType], ColumnSeparator) + "\t")
            == Success([Asset(path, name, contentType)])
  {
    var rows := [[path, name, contentType]];
    var line := Join(rows[0], ColumnSeparator);
    var text := line + "\t";
    JoinFirst(rows[0], ColumnSeparator);
    JoinLast(rows[0], ColumnSeparator);
    TrimKeepsPrefix(text, |line|);
    assert TrailingWhitespace(text) == |line|;
    assert text[..|line|] == line;
    TrimOfTrimmed(line);
    assert Lines(text) == Lines(line);
    assert ParseManifest(text) == ParseManifest(line);
    assert RowLines(rows) == [line];
    ParseTable(rows);
    assert WellFormed(rows);
    assert AssetsOfRows(rows) == [Asset(path, name, contentType)];
  }

  /**
    A first line of two fields rejects the whole manifest, whatever follows
    it, as long as trim leaves that line alone.
   */
  lemma TwoColumnLineRejected(first: seq<string>, rest: string)
    requires |first| == 2 && FieldOk(first[0]) && FieldOk(first[1])
    requires first[0] != [] && !IsWhitespace(first[0][0])
    requires first[1] != [] && !IsWhitespace(first[1][|first[1]| - 1])
    ensures ParseManifest(Join(first, ColumnSeparator) + "\n" + rest) == Failure(BrokenManifest)
  {
    var line := Join(first, ColumnSeparator);
    var text := line + "\n" + rest;
    JoinFirst(first, ColumnSeparator);
    JoinLast(first, ColumnSeparator);
    JoinAvoids(first, ColumnSeparator, LineSeparator);
    SplitJoin(first, ColumnSeparator);
    TrimKeepsPrefix(text, |line|);
    var hi := TrailingWhitespace(text);
    if hi == |line| {
      assert Trim(text) == line;
      SplitWithoutSeparator(line, LineSeparator);
    } else {
      var tail := text[|line| + 1..hi];
      assert Trim(text) == line + [LineSeparator] + tail;
      SplitAfterField(line, tail, LineSeparator);
    }
    assert Lines(text)[0] == line;
    BadLineRejects(text, 0);
  }

  /** The 12 bytes of "test content". */
  const TestContent: Bytes := [0x74, 0x65, 0x73, 0x74, 0x20, 0x63, 0x6f, 0x6e, 0x74, 0x65, 0x6e, 0x74]

  /** The test's filesystem: the manifest under "foo", and every asset of stat size 527 holding TestContent. */
  function TestFileSystem(): FileSystem
  {
    FileSystem(
      map[TestAsset('1').path := 527, TestAsset('2').path := 527, TestAsset('3').path := 527],
      map[TestAsset('1').path := TestContent, TestAsset('2').path := TestContent, TestAsset('3').path := TestContent],
      map["foo" := TestManifest()])
  }

  /** The test's inputs: only `upload_url` and `assets_from_file` are set. */
  function TestInputs(): Inputs
  {
    Inputs("upload_url_value", "foo", "", "", "")
  }

  /** The request the test expects for asset n. */
  function TestRequest(n: char): UploadRequest
  {
    UploadRequest("upload_url_value", Headers("asset_content_type_" + [n], 527), "asset_name_" + [n], TestContent)
  }

  lemma TestSelection()
    ensures SelectedAssets(TestInputs(), TestFileSystem()) == Success([TestAsset('1'), TestAsset('2'), TestAsset('3')])
  {
    TestManifestParses();
  }

  lemma TestRequestFor(n: char)
    requires n in "123"
    ensures TestAsset(n).path in TestFileSystem().sizes && TestAsset(n).path in TestFileSystem().contents
    ensures RequestFor(TestAsset(n), "upload_url_value", TestFileSystem()) == TestRequest(n)
  {
  }

  lemma TestRequests()
    ensures var assets := [TestAsset('1'), TestAsset('2'), TestAsset('3')];
            var fs := TestFileSystem();
            && (forall i :: 0 <= i < |assets| ==> assets[i].path in fs.sizes && assets[i].path in fs.contents)
            && seq(|assets|, i requires 0 <= i < |assets| => RequestFor(assets[i], "upload_url_value", fs))
               == [TestRequest('1'), TestRequest('2'), TestRequest('3')]
  {
    TestRequestFor('1');
    TestRequestFor('2');
    TestRequestFor('3');
  }

  /**
    The multi-asset test: three uploads, in manifest order, each with the
    stat size 527 as content-length although the bytes read are 12 long.
   */
  lemma MultipleAssetsTest()
    ensures Uploads(RunCalls(TestInputs(), TestFileSystem())) == [TestRequest('1'), TestRequest('2'), TestRequest('3')]
    ensures |TestContent| == 12
  {
    TestSelection();
    TestRequests();
    RunUploadsAreRequests(TestInputs(), TestFileSystem());
  }

  /** The inputs of the single-asset tests: every input but `assets_from_file` is set. */
  function SingleAssetInputs(): Inputs
  {
    Inputs("upload_url_value", "", "asset_path_value", "asset_name_value", "asset_content_type_value")
  }

  /** A release host that rejects every upload, as the failure test's mock does. */
  function RejectingClient(): Host
  {
    (_, _) => Rejected("Error uploading release asset")
  }

  /** The failure test: the upload is rejected, and its message is the only error. */
  lemma UploadFailureTest(fs: FileSystem)
    requires "asset_path_value" in fs.sizes && "asset_path_value" in fs.contents
    ensures RunErrors(SingleAssetInputs(), fs, RejectingClient()) == ["Error uploading release asset"]
  {
    var a := SingleAsset(SingleAssetInputs());
    assert [a][..0] == [];
    assert DispatchErrors([a], "upload_url_value", fs, RejectingClient())
        == AssetErrors(a, 0, "upload_url_value", fs, RejectingClient());
  }

  /**
    A caller of Run sees the failure test's outcome: the upload is made, and
    `setFailed` is called once, with the upload's message.
   */
  method FailsElegantly(fs: FileSystem) returns (calls: seq<Call>, failed: seq<string>)
    requires "asset_path_value" in fs.sizes && "asset_path_value" in fs.contents
    ensures |Uploads(calls)| == 1
    ensures failed == ["Error uploading release asset"]
  {
    calls, failed := Run(SingleAssetInputs(), fs, RejectingClient());
    UploadFailureTest(fs);
    SingleAssetRun(SingleAssetInputs(), fs);
  }

  /** A release host that accepts the first upload of a batch and refuses every later one. */
  function FirstOnlyHost(message: string): Host
  {
    (i, _) => if i == 0 then Uploaded else Rejected(message)
  }

  /**
    A manifest that lists the same ready asset twice uploads it twice, and the
    run fails with the host's refusal of the second upload although the first
    one was accepted.
   */
  lemma RepeatedAssetRefused(a: Asset, url: string, fs: FileSystem, message: string)
    requires Ready(a, fs)
    ensures Uploads(DispatchCalls([a, a], url, fs)) == [RequestFor(a, url, fs), RequestFor(a, url, fs)]
    ensures DispatchErrors([a, a], url, fs, FirstOnlyHost(message)) == [message]
  {
    assert [a, a][..1] == [a];
    assert [a][..0] == [];
    OneUploadPerAssetInOrder([a, a], url, fs);
    assert Requests([a, a], url, fs) == [RequestFor(a, url, fs), RequestFor(a, url, fs)];
    var host := FirstOnlyHost(message);
    assert host(0, RequestFor(a, url, fs)) == Uploaded;
    assert host(1, RequestFor(a, url, fs)) == Rejected(message);
    assert AssetErrors(a, 0, url, fs, host) == [];
    assert AssetErrors(a, 1, url, fs, host) == [message];
    assert DispatchErrors([a], url, fs, host) == [];
  }
}
