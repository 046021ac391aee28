/**
  The action's entry point `run()`: choose the assets (from the manifest named
  by `assets_from_file`, or the single `asset_path`/`asset_name`/
  `asset_content_type` triple), then for every asset stat its file for the
  `content-length` header, read its bytes and issue one upload request to the
  batch-wide `upload_url`. Any error ends in one `setFailed(message)`.

  The filesystem, the upload client and the failure reporter are parameters:
  the method returns the calls it issued and the messages it reported.
 */
module UploadReleaseAsset {
  import opened Wrappers
  import opened Strings
  import opened Manifest

  type Bytes = seq<bv8>

  /**
    What the action can observe of the filesystem: `statSync(p).size`,
    `readFileSync(p)` and `readFileSync(p, 'utf8')` for each path. A path
    missing from a map makes that access throw. The three views are
    independent: a reported size need not be the length of the bytes read.
   */
  datatype FileSystem = FileSystem(sizes: map<string, nat>, contents: map<string, Bytes>, texts: map<string, string>)

  /** The workflow inputs, as `core.getInput` returns them. */
  datatype Inputs = Inputs(
    uploadUrl: string,
    assetsFromFile: string,
    assetPath: string,
    assetName: string,
    assetContentType: string)

  datatype Headers = Headers(contentType: string, contentLength: nat)

  /** The argument of `github.repos.uploadReleaseAsset`. */
  datatype UploadRequest = UploadRequest(url: string, headers: Headers, name: string, file: Bytes)

  /** How the release host answers one upload request. */
  datatype Outcome = Uploaded | Rejected(message: string)

  /**
    The release host: its answer to the upload made for the asset at a given
    position of the batch. The position lets the answer depend on the uploads
    before it, as when a second asset of the same name is refused.
   */
  type Host = (nat, UploadRequest) -> Outcome

  /** One call of the action into the outside world. */
  datatype Call =
    | ReadManifest(path: string)
    | Stat(path: string)
    | ReadFile(path: string)
    | Upload(request: UploadRequest)

  /** The messages Node gives the errors `statSync` and `readFileSync` throw for a missing file. */
  function StatError(path: string): string
  {
    "ENOENT: no such file or directory, stat '" + path + "'"
  }

  function OpenError(path: string): string
  {
    "ENOENT: no such file or directory, open '" + path + "'"
  }

  /** True in manifest mode: the `assets_from_file` input is not empty. */
  predicate ManifestMode(inputs: Inputs)
  {
    |inputs.assetsFromFile| > 0
  }

  /** The single-asset descriptor built from the three discrete inputs. */
  function SingleAsset(inputs: Inputs): Asset
  {
    Asset(inputs.assetPath, inputs.assetName, inputs.assetContentType)
  }

  /** The assets the action selects (lines 14-38), or the message of the error thrown on the way. */
  function SelectedAssets(inputs: Inputs, fs: FileSystem): (r: Result<seq<Asset>, string>)
    ensures !ManifestMode(inputs) ==> r == Success([SingleAsset(inputs)])
    ensures ManifestMode(inputs) && inputs.assetsFromFile !in fs.texts ==>
              r == Failure(OpenError(inputs.assetsFromFile))
    ensures ManifestMode(inputs) && inputs.assetsFromFile in fs.texts ==>
              r == ParseManifest(fs.texts[inputs.assetsFromFile])
  {
    if ManifestMode(inputs) then
      if inputs.assetsFromFile in fs.texts then ParseManifest(fs.texts[inputs.assetsFromFile])
      else Failure(OpenError(inputs.assetsFromFile))
    else
      Success([SingleAsset(inputs)])
  }

  /** The calls issued while selecting the assets: the manifest read, in manifest mode only. */
  function SelectionCalls(inputs: Inputs): seq<Call>
  {
    if ManifestMode(inputs) then [ReadManifest(inputs.assetsFromFile)] else []
  }

  /** The upload request for one asset whose file can be stat'ed and read. */
  function RequestFor(a: Asset, url: string, fs: FileSystem): UploadRequest
    requires a.path in fs.sizes && a.path in fs.contents
  {
    UploadRequest(url, Headers(a.contentType, fs.sizes[a.path]), a.name, fs.contents[a.path])
  }

  /**
    The calls made for one asset (lines 44-57): the stat; if it succeeded, the
    read; if that succeeded, the upload.
   */
  function AssetCalls(a: Asset, url: string, fs: FileSystem): seq<Call>
  {
    if a.path !in fs.sizes then [Stat(a.path)]
    else if a.path !in fs.contents then [Stat(a.path), ReadFile(a.path)]
    else [Stat(a.path), ReadFile(a.path), Upload(RequestFor(a, url, fs))]
  }

  /** The error, if any, with which the upload chain of the asset at position `i` ends. */
  function AssetErrors(a: Asset, i: nat, url: string, fs: FileSystem, client: Host): seq<string>
  {
    if a.path !in fs.sizes then [StatError(a.path)]
    else if a.path !in fs.contents then [OpenError(a.path)]
    else match client(i, RequestFor(a, url, fs))
      case Uploaded => []
      case Rejected(m) => [m]
  }

  /** The calls of every asset's chain, in asset order. */
  function DispatchCalls(assets: seq<Asset>, url: string, fs: FileSystem): seq<Call>
  {
    if assets == [] then []
    else DispatchCalls(assets[..|assets| - 1], url, fs) + AssetCalls(assets[|assets| - 1], url, fs)
  }

  /** The errors of every asset's chain, in asset order. */
  function DispatchErrors(assets: seq<Asset>, url: string, fs: FileSystem, client: Host): seq<string>
  {
    if assets == [] then []
    else DispatchErrors(assets[..|assets| - 1], url, fs, client) + AssetErrors(assets[|assets| - 1], |assets| - 1, url, fs, client)
  }

  /**
    Every call `run()` makes, for inputs that `core.getInput` lets through
    (the preconditions of `Run`).
   */
  function RunCalls(inputs: Inputs, fs: FileSystem): seq<Call>
  {
    SelectionCalls(inputs) +
    match SelectedAssets(inputs, fs)
    case Success(assets) => DispatchCalls(assets, inputs.uploadUrl, fs)
    case Failure(_) => []
  }

  /** Every error raised during `run()`; the one reported is one of them. */
  function RunErrors(inputs: Inputs, fs: FileSystem, client: Host): seq<string>
  {
    match SelectedAssets(inputs, fs)
    case Success(assets) => DispatchErrors(assets, inputs.uploadUrl, fs, client)
    case Failure(e) => [e]
  }

  /** Lines 14-38: build the `assets` array by `push`, reading and checking the manifest first. */
  method CollectAssets(inputs: Inputs, fs: FileSystem) returns (assets: Result<seq<Asset>, string>, calls: seq<Call>)
    ensures assets == SelectedAssets(inputs, fs)
    ensures calls == SelectionCalls(inputs)
  {
    var pushed: seq<Asset> := [];
    calls := [];
    if |inputs.assetsFromFile| > 0 {
      calls := calls + [ReadManifest(inputs.assetsFromFile)];
      if inputs.assetsFromFile !in fs.texts {
        return Failure(OpenError(inputs.assetsFromFile)), calls;
      }
      var text := fs.texts[inputs.assetsFromFile];
      var rows := Rows(Lines(text));
      if !WellFormed(rows) {
        return Failure(BrokenManifest), calls;
      }
      var i := 0;
      while i < |rows|
        invariant 0 <= i <= |rows|
        invariant pushed == seq(i, k requires 0 <= k < i => AssetOfRow(rows[k]))
      {
        pushed := pushed + [Asset(rows[i][0], rows[i][1], rows[i][2])];
        i := i + 1;
      }
      assert pushed == AssetsOfRows(rows);
      assert ParseManifest(text) == Success(pushed);
    } else {
      pushed := pushed + [Asset(inputs.assetPath, inputs.assetName, inputs.assetContentType)];
      assert pushed == [SingleAsset(inputs)];
    }
    assets := Success(pushed);
  }

  /**
    Lines 44-57, the callback for the asset at position `i`: stat its path for the
    content-length header, read its bytes, and issue the upload. A failing
    step ends the chain with that step's error.
   */
  method Attempt(a: Asset, i: nat, url: string, fs: FileSystem, client: Host)
    returns (calls: seq<Call>, errors: seq<string>)
    ensures calls == AssetCalls(a, url, fs)
    ensures errors == AssetErrors(a, i, url, fs, client)
  {
    calls, errors := [Stat(a.path)], [];
    if a.path !in fs.sizes {
      errors := [StatError(a.path)];
      return;
    }
    var headers := Headers(a.contentType, fs.sizes[a.path]);
    calls := calls + [ReadFile(a.path)];
    if a.path !in fs.contents {
      errors := [OpenError(a.path)];
      return;
    }
    var request := UploadRequest(url, headers, a.name, fs.contents[a.path]);
    calls := calls + [Upload(request)];
    match client(i, request) {
      case Uploaded =>
      case Rejected(m) => errors := [m];
    }
  }

  /**
    Lines 41-58: run the callback for every asset, in order. A failing chain
    does not stop the next asset's, as every callback given to `Promise.all`
    runs up to its `await` before the next one starts.
   */
  method Dispatch(assets: seq<Asset>, url: string, fs: FileSystem, client: Host)
    returns (calls: seq<Call>, errors: seq<string>)
    ensures calls == DispatchCalls(assets, url, fs)
    ensures errors == DispatchErrors(assets, url, fs, client)
  {
    calls, errors := [], [];
    var i := 0;
    while i < |assets|
      invariant 0 <= i <= |assets|
      invariant calls == DispatchCalls(assets[..i], url, fs)
      invariant errors == DispatchErrors(assets[..i], url, fs, client)
    {
      var assetCalls, assetErrors := Attempt(assets[i], i, url, fs, client);
      calls, errors := calls + assetCalls, errors + assetErrors;
      assert assets[..i + 1][..i] == assets[..i];
      i := i + 1;
    }
    assert assets[..i] == assets;
  }

  /**
    `run()`: every call it makes, and the messages given to `setFailed`: none
    when nothing failed, otherwise exactly one, the message of one of the errors.
   */
  method Run(inputs: Inputs, fs: FileSystem, client: Host)
    returns (calls: seq<Call>, failed: seq<string>)
    requires inputs.uploadUrl != []
    requires !ManifestMode(inputs) ==>
               inputs.assetPath != [] && inputs.assetName != [] && inputs.assetContentType != []
    ensures calls == RunCalls(inputs, fs)
    ensures |failed| <= 1
    ensures failed == [] <==> RunErrors(inputs, fs, client) == []
    ensures failed != [] ==> failed[0] in RunErrors(inputs, fs, client)
  {
    var assets, selectionCalls := CollectAssets(inputs, fs);
    calls := selectionCalls;
    failed := [];
    match assets {
      case Failure(e) =>
        failed := [e];
      case Success(selected) =>
        var dispatchCalls, errors := Dispatch(selected, inputs.uploadUrl, fs, client);
        calls := calls + dispatchCalls;
        if errors != [] {
          failed := [errors[0]];
        }
    }
  }
}
