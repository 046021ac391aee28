/**
  What `run()` promises about the calls it makes and the failure it reports,
  proved of the specification functions that `UploadReleaseAsset.Run` meets.
 */
module RunProperties {
  import opened Wrappers
  import opened Strings
  import opened Manifest
  import opened UploadReleaseAsset

  /** The requests of the upload calls, in call order. */
  function Uploads(calls: seq<Call>): seq<UploadRequest>
  {
    if calls == [] then []
    else (if calls[0].Upload? then [calls[0].request] else []) + Uploads(calls[1..])
  }

  /** The paths of the stat calls, in call order. */
  function StatPaths(calls: seq<Call>): seq<string>
  {
    if calls == [] then []
    else (if calls[0].Stat? then [calls[0].path] else []) + StatPaths(calls[1..])
  }

  /** True when the call touches an asset file or the release host, not the manifest. */
  predicate TouchesAsset(c: Call)
  {
    c.Stat? || c.ReadFile? || c.Upload?
  }

  lemma {:induction false} UploadsAppend(a: seq<Call>, b: seq<Call>)
    ensures Uploads(a + b) == Uploads(a) + Uploads(b)
    decreases |a|
  {
    if a == [] {
      assert a + b == b;
    } else {
      assert (a + b)[0] == a[0];
      assert (a + b)[1..] == a[1..] + b;
      UploadsAppend(a[1..], b);
    }
  }

  lemma {:induction false} StatPathsAppend(a: seq<Call>, b: seq<Call>)
    ensures StatPaths(a + b) == StatPaths(a) + StatPaths(b)
    decreases |a|
  {
    if a == [] {
      assert a + b == b;
    } else {
      assert (a + b)[0] == a[0];
      assert (a + b)[1..] == a[1..] + b;
      StatPathsAppend(a[1..], b);
    }
  }

  /** A file is ready when both its stat and its read succeed. */
  predicate Ready(a: Asset, fs: FileSystem)
  {
    a.path in fs.sizes && a.path in fs.contents
  }

  lemma CallsOfOne(c: Call)
    ensures StatPaths([c]) == if c.Stat? then [c.path] else []
    ensures Uploads([c]) == if c.Upload? then [c.request] else []
  {
    assert [c][1..] == [];
  }

  /** One asset's chain always stats its path and uploads exactly when its file is ready. */
  lemma AssetCallsShape(a: Asset, url: string, fs: FileSystem)
    ensures StatPaths(AssetCalls(a, url, fs)) == [a.path]
    ensures Uploads(AssetCalls(a, url, fs)) == if Ready(a, fs) then [RequestFor(a, url, fs)] else []
  {
    CallsOfOne(Stat(a.path));
    if a.path in fs.sizes {
      CallsOfOne(ReadFile(a.path));
      StatPathsAppend([Stat(a.path)], [ReadFile(a.path)]);
      UploadsAppend([Stat(a.path)], [ReadFile(a.path)]);
      if a.path in fs.contents {
        var upload := Upload(RequestFor(a, url, fs));
        CallsOfOne(upload);
        StatPathsAppend([Stat(a.path), ReadFile(a.path)], [upload]);
        UploadsAppend([Stat(a.path), ReadFile(a.path)], [upload]);
      }
    }
  }

  /**
    Every asset's file is stat'ed, in asset order, whatever happened to the
    assets before it.
   */
  lemma {:induction false} EveryAssetAttempted(assets: seq<Asset>, url: string, fs: FileSystem)
    ensures StatPaths(DispatchCalls(assets, url, fs)) == seq(|assets|, i requires 0 <= i < |assets| => assets[i].path)
    decreases |assets|
  {
    if assets != [] {
      var init := assets[..|assets| - 1];
      var a := assets[|assets| - 1];
      EveryAssetAttempted(init, url, fs);
      StatPathsAppend(DispatchCalls(init, url, fs), AssetCalls(a, url, fs));
      AssetCallsShape(a, url, fs);
    }
  }

  /** At most one upload per asset, each to the batch's URL. */
  lemma {:induction false} AtMostOneUploadPerAsset(assets: seq<Asset>, url: string, fs: FileSystem)
    ensures |Uploads(DispatchCalls(assets, url, fs))| <= |assets|
    ensures forall k :: 0 <= k < |Uploads(DispatchCalls(assets, url, fs))| ==>
              Uploads(DispatchCalls(assets, url, fs))[k].url == url
    decreases |assets|
  {
    if assets != [] {
      var init := assets[..|assets| - 1];
      var a := assets[|assets| - 1];
      AtMostOneUploadPerAsset(init, url, fs);
      UploadsAppend(DispatchCalls(init, url, fs), AssetCalls(a, url, fs));
      AssetCallsShape(a, url, fs);
    }
  }

  /** The upload requests of the given assets, in asset order. */
  function Requests(assets: seq<Asset>, url: string, fs: FileSystem): seq<UploadRequest>
    requires forall i :: 0 <= i < |assets| ==> assets[i].path in fs.sizes && assets[i].path in fs.contents
  {
    seq(|assets|, i requires 0 <= i < |assets| => RequestFor(assets[i], url, fs))
  }

  lemma RequestsSnoc(assets: seq<Asset>, url: string, fs: FileSystem)
    requires assets != []
    requires forall i :: 0 <= i < |assets| ==> assets[i].path in fs.sizes && assets[i].path in fs.contents
    ensures Requests(assets, url, fs) ==
            Requests(assets[..|assets| - 1], url, fs) + [RequestFor(assets[|assets| - 1], url, fs)]
  {
    var before, all := Requests(assets[..|assets| - 1], url, fs), Requests(assets, url, fs);
    assert forall i :: 0 <= i < |before| ==> all[i] == before[i];
  }

  /**
    When every file can be stat'ed and read, exactly one upload is made per
    asset, in asset order: the batch URL, the asset's name and content-type,
    the stat size as content-length and the bytes read as file.
   */
  lemma {:induction false} OneUploadPerAssetInOrder(assets: seq<Asset>, url: string, fs: FileSystem)
    requires forall i :: 0 <= i < |assets| ==> assets[i].path in fs.sizes && assets[i].path in fs.contents
    ensures Uploads(DispatchCalls(assets, url, fs)) == Requests(assets, url, fs)
    decreases |assets|
  {
    if assets != [] {
      var init := assets[..|assets| - 1];
      var a := assets[|assets| - 1];
      assert forall i :: 0 <= i < |init| ==> init[i] == assets[i];
      OneUploadPerAssetInOrder(init, url, fs);
      assert DispatchCalls(assets, url, fs) == DispatchCalls(init, url, fs) + AssetCalls(a, url, fs);
      UploadsAppend(DispatchCalls(init, url, fs), AssetCalls(a, url, fs));
      AssetCallsShape(a, url, fs);
      RequestsSnoc(assets, url, fs);
    }
  }

  /** The error of each asset's chain is among the batch's errors. */
  lemma {:induction false} AssetErrorAmongErrors(assets: seq<Asset>, url: string, fs: FileSystem,
                                                 client: Host, i: nat, e: string)
    requires i < |assets|
    requires e in AssetErrors(assets[i], i, url, fs, client)
    ensures e in DispatchErrors(assets, url, fs, client)
    decreases |assets|
  {
    if i < |assets| - 1 {
      AssetErrorAmongErrors(assets[..|assets| - 1], url, fs, client, i, e);
    }
  }

  /** A batch has no error exactly when every asset is stat'ed, read and accepted. */
  lemma {:induction false} DispatchSucceedsIff(assets: seq<Asset>, url: string, fs: FileSystem,
                                               client: Host)
    ensures DispatchErrors(assets, url, fs, client) == [] <==>
            forall i :: 0 <= i < |assets| ==>
              Ready(assets[i], fs) && client(i, RequestFor(assets[i], url, fs)) == Uploaded
    decreases |assets|
  {
    if assets != [] {
      var init := assets[..|assets| - 1];
      DispatchSucceedsIff(init, url, fs, client);
      assert forall i :: 0 <= i < |init| ==> init[i] == assets[i];
    }
  }

  /** The manifest is read, as the first call, exactly when `assets_from_file` is not empty. */
  lemma ManifestModeIff(inputs: Inputs, fs: FileSystem)
    ensures (RunCalls(inputs, fs) != [] && RunCalls(inputs, fs)[0].ReadManifest?) <==> ManifestMode(inputs)
  {
    if !ManifestMode(inputs) {
      assert DispatchCalls([SingleAsset(inputs)], inputs.uploadUrl, fs)
          == AssetCalls(SingleAsset(inputs), inputs.uploadUrl, fs);
    }
  }

  /**
    A manifest with a line that is not 3 columns fails the whole run with the
    3-columns message: no asset file is touched and nothing is uploaded.
   */
  lemma BrokenManifestStopsRun(inputs: Inputs, fs: FileSystem, client: Host)
    requires ManifestMode(inputs) && inputs.assetsFromFile in fs.texts
    requires exists i :: 0 <= i < |Lines(fs.texts[inputs.assetsFromFile])|
                      && |Columns(Lines(fs.texts[inputs.assetsFromFile])[i])| != 3
    ensures RunCalls(inputs, fs) == [ReadManifest(inputs.assetsFromFile)]
    ensures forall c :: c in RunCalls(inputs, fs) ==> !TouchesAsset(c)
    ensures RunErrors(inputs, fs, client) == [BrokenManifest]
  {
    assert ParseManifest(fs.texts[inputs.assetsFromFile]) == Failure(BrokenManifest);
    assert SelectedAssets(inputs, fs) == Failure(BrokenManifest);
    assert SelectionCalls(inputs) == [ReadManifest(inputs.assetsFromFile)];
  }

  /** Without a manifest, the run makes exactly the one upload built from the three inputs. */
  lemma SingleAssetRun(inputs: Inputs, fs: FileSystem)
    requires !ManifestMode(inputs) && Ready(SingleAsset(inputs), fs)
    requires inputs.assetPath != [] && inputs.assetName != [] && inputs.assetContentType != []
    ensures Uploads(RunCalls(inputs, fs)) ==
            [UploadRequest(inputs.uploadUrl,
                           Headers(inputs.assetContentType, fs.sizes[inputs.assetPath]),
                           inputs.assetName,
                           fs.contents[inputs.assetPath])]
  {
    var a := SingleAsset(inputs);
    assert [a][..0] == [];
    assert SelectionCalls(inputs) == [];
    assert SelectedAssets(inputs, fs) == Success([a]);
    assert DispatchCalls([a], inputs.uploadUrl, fs) == AssetCalls(a, inputs.uploadUrl, fs);
    assert RunCalls(inputs, fs) == AssetCalls(a, inputs.uploadUrl, fs);
    AssetCallsShape(a, inputs.uploadUrl, fs);
  }

  /**
    With a well-formed manifest whose files are all ready, upload i is made
    for manifest line i: its name and content-type are columns 1 and 2 of
    that line, its content-length the stat size of column 0 and its file the
    bytes read from column 0.
   */
  lemma ManifestRun(inputs: Inputs, fs: FileSystem)
    requires ManifestMode(inputs) && inputs.assetsFromFile in fs.texts
    requires var lines := Lines(fs.texts[inputs.assetsFromFile]);
             forall i :: 0 <= i < |lines| ==> |Columns(lines[i])| == 3
    requires var lines := Lines(fs.texts[inputs.assetsFromFile]);
             forall i :: 0 <= i < |lines| ==> |Columns(lines[i])| >= 1 && Columns(lines[i])[0] in fs.sizes
    requires var lines := Lines(fs.texts[inputs.assetsFromFile]);
             forall i :: 0 <= i < |lines| ==> |Columns(lines[i])| >= 1 && Columns(lines[i])[0] in fs.contents
    ensures var lines := Lines(fs.texts[inputs.assetsFromFile]);
            var ups := Uploads(RunCalls(inputs, fs));
      && |ups| == |lines|
      && forall i :: 0 <= i < |lines| ==>
           && ups[i].url == inputs.uploadUrl
           && ups[i].name == Columns(lines[i])[1]
           && ups[i].headers.contentType == Columns(lines[i])[2]
           && ups[i].headers.contentLength == fs.sizes[Columns(lines[i])[0]]
           && ups[i].file == fs.contents[Columns(lines[i])[0]]
  {
    var text := fs.texts[inputs.assetsFromFile];
    var assets := ParseManifest(text).value;
    RunUploadsAreRequests(inputs, fs);
    assert Uploads(RunCalls(inputs, fs)) == Requests(assets, inputs.uploadUrl, fs);
  }

  /** When the selected files are all ready, the run's uploads are the assets' requests, in order. */
  lemma RunUploadsAreRequests(inputs: Inputs, fs: FileSystem)
    requires SelectedAssets(inputs, fs).Success?
    requires var assets := SelectedAssets(inputs, fs).value;
             forall i :: 0 <= i < |assets| ==> assets[i].path in fs.sizes && assets[i].path in fs.contents
    ensures Uploads(RunCalls(inputs, fs)) == Requests(SelectedAssets(inputs, fs).value, inputs.uploadUrl, fs)
  {
    var assets := SelectedAssets(inputs, fs).value;
    OneUploadPerAssetInOrder(assets, inputs.uploadUrl, fs);
    UploadsAppend(SelectionCalls(inputs), DispatchCalls(assets, inputs.uploadUrl, fs));
    assert Uploads(SelectionCalls(inputs)) == [] by {
      if ManifestMode(inputs) {
        assert Uploads([ReadManifest(inputs.assetsFromFile)]) == [];
      }
    }
  }

  /** A run reports nothing exactly when the assets are selected and every upload chain succeeds. */
  lemma RunSucceedsIff(inputs: Inputs, fs: FileSystem, client: Host)
    ensures RunErrors(inputs, fs, client) == [] <==>
            && SelectedAssets(inputs, fs).Success?
            && var assets := SelectedAssets(inputs, fs).value;
               forall i :: 0 <= i < |assets| ==>
                 Ready(assets[i], fs) && client(i, RequestFor(assets[i], inputs.uploadUrl, fs)) == Uploaded
  {
    if SelectedAssets(inputs, fs).Success? {
      DispatchSucceedsIff(SelectedAssets(inputs, fs).value, inputs.uploadUrl, fs, client);
    }
  }

  /** A rejected upload is among the errors the run may report. */
  lemma RejectedUploadReportable(inputs: Inputs, fs: FileSystem, client: Host, i: nat, m: string)
    requires SelectedAssets(inputs, fs).Success?
    requires var assets := SelectedAssets(inputs, fs).value;
             i < |assets| && Ready(assets[i], fs)
             && client(i, RequestFor(assets[i], inputs.uploadUrl, fs)) == Rejected(m)
    ensures m in RunErrors(inputs, fs, client)
  {
    var assets := SelectedAssets(inputs, fs).value;
    AssetErrorAmongErrors(assets, inputs.uploadUrl, fs, client, i, m);
  }
}
