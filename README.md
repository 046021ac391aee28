# upload-release-asset, modelled in Dafny

The GitHub Action `upload-release-asset` uploads one or more files to a
release. Its whole logic is `run()`:

1. It selects the assets. If the `assets_from_file` input is not empty, it
   reads that manifest. The whole text is trimmed and split into lines at
   every `\n`. Each line is split into columns at every `\t`. If any line does
   not have exactly three columns, the run fails with "Assets from file seem
   broken, it must contain 3 columns for every line". Otherwise each line
   becomes one asset `{path, name, content-type}`, in line order. Without a
   manifest, the one asset comes from `asset_path`, `asset_name` and
   `asset_content_type`.
2. It dispatches the assets. For each asset, in order, it stats the path for
   the `content-length` header, reads the file's bytes, and issues one upload
   to the batch-wide `upload_url`. The request carries the asset's name and
   `content-type`.
3. Any error, whether a broken manifest, an unreadable file or a rejected
   upload, becomes exactly one `setFailed(message)`.

Modules:

- `Strings` (strings.dfy): ECMAScript `trim`, with its full WhiteSpace and
  LineTerminator set, and `split`/`join` at a one-character separator. Lemmas
  give the round trips between split and join, the field count, and the
  effect of trim.
- `Manifest` (manifest.dfy): the `Asset` record and the pure manifest pipeline
  `ParseManifest`. It comes with the parse/render round trips in both
  directions, the rejection of blank manifests, and the "two tabs per line"
  characterisation.
- `UploadReleaseAsset` (upload_release_asset.dfy): the filesystem, the upload
  request and the trace of calls. Specification functions give the calls and
  errors of a run. The imperative methods are `CollectAssets` (the push
  loop), `Attempt` (one asset's callback), `Dispatch` (the per-asset loop)
  and `Run` (with the catch). Each is
  proved against those functions.
- `RunProperties` (run_properties.dfy): count, order and contents of the
  uploads, and the failure behaviour.
- `Scenarios` (examples.dfy): the repository's multi-asset test and its
  (disabled) failure test, plus edge cases of the manifest format.

The outside world is made of parameters:

- The filesystem is a value with three maps, path to stat size, to bytes and
  to UTF-8 text. A missing key means that access throws Node's ENOENT error.
- The release host is a function from the asset's position in the batch and
  its upload request to `Uploaded` or `Rejected(message)`. The position lets
  the answer depend on earlier uploads, such as refusing a repeated name.
- `Run` returns the calls it made and the messages it passed to `setFailed`.

## Model

| member | source | states |
|---|---|---|
| Strings.LeadingWhitespace | src/upload-release-asset.js:19 | the offset where trim starts: everything before it is whitespace, and the character at it is not |
| Strings.TrailingWhitespace | src/upload-release-asset.js:19 | the offset where trim stops: everything from it on is whitespace, and the character before it is not |
| Strings.Trim | src/upload-release-asset.js:19 | the result is empty exactly when the input is all whitespace; otherwise it neither starts nor ends with whitespace |
| Strings.TrimRemovesOnlyOuterWhitespace | src/upload-release-asset.js:19 | the trimmed text is a contiguous slice of the input, with only whitespace before and after it |
| Strings.TrimKeepsPrefix | src/upload-release-asset.js:19 | a string that starts with non-whitespace keeps its start under trim, and keeps everything up to any later non-whitespace character |
| Strings.TrimOfTrimmed | src/upload-release-asset.js:19 | a text with no whitespace at either end is left unchanged by trim |
| Strings.TrimIdempotent | src/upload-release-asset.js:19 | trimming twice equals trimming once |
| Strings.Split | src/upload-release-asset.js:20-21 | split always yields at least one field, and no field contains the separator |
| Strings.SplitFieldCount | src/upload-release-asset.js:20-21 | the number of fields is the number of separators plus one |
| Strings.SplitWithoutSeparator | src/upload-release-asset.js:20-21 | a string without the separator splits into exactly itself |
| Strings.JoinSplit | src/upload-release-asset.js:20-21 | joining the fields of a split with the separator gives back the original string |
| Strings.SplitJoin | src/upload-release-asset.js:20-21 | splitting a join of separator-free parts gives back the parts |
| Manifest.ParseManifest | src/upload-release-asset.js:18-29 | the manifest is rejected, with the 3-columns message, exactly when some trimmed line does not split into 3 tab fields. Otherwise there is one descriptor per line, in line order, and descriptor i's path, name and content-type are columns 0, 1 and 2 of line i (at least one descriptor) |
| Manifest.BadLineRejects | src/upload-release-asset.js:23-25 | any one line of the trimmed text that is not 3 columns rejects the whole manifest, with the 3-columns message |
| Manifest.BlankManifestRejected | src/upload-release-asset.js:18-25 | an empty or whitespace-only manifest is rejected; it never yields zero assets |
| Manifest.AcceptedIffTwoTabsPerLine | src/upload-release-asset.js:20-25 | a manifest is accepted exactly when every line of the trimmed text holds exactly two tabs, so an extra tab inside the trimmed text rejects it (a tab at either end of the whole text is removed by trim) |
| Manifest.TableLines | src/upload-release-asset.js:18-21 | the text of a table with no tab or newline in its fields, and no whitespace at its two ends, trims to itself; its lines are the table's rows and their columns are the rows' fields |
| Manifest.ParseTable | src/upload-release-asset.js:18-29 | such a table's text is accepted exactly when every row has three fields, and then gives one descriptor per row, in row order; otherwise it is rejected with the 3-columns message |
| Manifest.ParseRender | src/upload-release-asset.js:18-29 | parsing the tab/newline rendering of expressible assets gives back exactly those assets |
| Manifest.RenderParse | src/upload-release-asset.js:18-29 | rendering the descriptors of an accepted manifest gives back the trimmed manifest text |
| UploadReleaseAsset.SelectedAssets | src/upload-release-asset.js:14-38 | without a manifest the assets are exactly the one single-asset descriptor; with one, they are the parse of the manifest text, or the read error when it cannot be read |
| UploadReleaseAsset.CollectAssets | src/upload-release-asset.js:14-38 | the loop that pushes descriptors builds exactly SelectedAssets, and the only call it makes is the manifest read, in manifest mode |
| UploadReleaseAsset.Attempt | src/upload-release-asset.js:44-57 | the callback of the asset at a given position makes exactly AssetCalls (the stat; the read if the stat succeeded; the upload if the read did) and ends with exactly AssetErrors (the failing step's error, or the host's refusal for that position) |
| UploadReleaseAsset.Dispatch | src/upload-release-asset.js:41-58 | the per-asset loop issues exactly DispatchCalls (stat, then read, then upload, per asset, in order, continuing past failures) and collects exactly DispatchErrors |
| UploadReleaseAsset.Run | src/upload-release-asset.js:5-62 | the calls of a run are RunCalls; setFailed is called at most once; it is called exactly when some error occurred, and with the message of one of those errors |
| RunProperties.AssetCallsShape | src/upload-release-asset.js:44-57 | each asset's chain stats its path once, and uploads exactly when both the stat and the read succeed |
| RunProperties.EveryAssetAttempted | src/upload-release-asset.js:43-57 | every descriptor's path is stat'ed, in descriptor order, even after an earlier descriptor failed |
| RunProperties.AtMostOneUploadPerAsset | src/upload-release-asset.js:43-57 | there are never more uploads than descriptors, and every upload goes to the batch URL |
| RunProperties.OneUploadPerAssetInOrder | src/upload-release-asset.js:41-57 | when every file can be stat'ed and read, there is exactly one upload per descriptor, in order. Upload i carries the URL, descriptor i's name and content-type, the stat size as content-length and the bytes read as file |
| RunProperties.AssetErrorAmongErrors | src/upload-release-asset.js:43-61 | the failure of any one descriptor's chain is among the errors that can be reported |
| RunProperties.DispatchSucceedsIff | src/upload-release-asset.js:43-58 | a batch has no error exactly when every descriptor's file can be stat'ed and read and its upload is accepted |
| RunProperties.ManifestModeIff | src/upload-release-asset.js:16-17 | the manifest is read, as the first call, exactly when the manifest input is non-empty |
| RunProperties.BrokenManifestStopsRun | src/upload-release-asset.js:23-25 | a manifest line without 3 columns makes the manifest read the only call: no stat, read or upload. The only error is the 3-columns message |
| RunProperties.SingleAssetRun | src/upload-release-asset.js:31-56 | without a manifest, and with the three single-asset inputs non-empty as `getInput` requires, exactly one upload is made, built from those inputs and the file's stat size and bytes |
| RunProperties.ManifestRun | src/upload-release-asset.js:16-56 | with a well-formed manifest whose files are all readable, upload i takes its name and content-type from columns 1 and 2 of manifest line i, and its content-length and file from the path in column 0 |
| RunProperties.RunUploadsAreRequests | src/upload-release-asset.js:41-57 | when all selected files are readable, the run's uploads are exactly the descriptors' requests, in order |
| RunProperties.RunSucceedsIff | src/upload-release-asset.js:43-61 | a run has no error exactly when the assets are selected and every descriptor's stat, read and upload succeed |
| RunProperties.RejectedUploadReportable | src/upload-release-asset.js:51-61 | a rejected upload's message is among the errors the run may report |
| Scenarios.TestManifestParses | tests/upload-release-asset.test.js:80-84 | the test's three-line manifest parses to its three descriptors, in order |
| Scenarios.MultipleAssetsTest | tests/upload-release-asset.test.js:75-115 | the multi-asset test makes exactly its three expected uploads, in order. Each has content-length 527, although the file read is 12 bytes long |
| Scenarios.UploadFailureTest | tests/upload-release-asset.test.js:129-145 | in the failure test, the rejected upload's message is the only error |
| Scenarios.FailsElegantly | tests/upload-release-asset.test.js:129-145 | Run then makes the one upload and calls setFailed exactly once, with "Error uploading release asset" |
| Scenarios.CarriageReturnKept | src/upload-release-asset.js:18-29 | in a manifest with `\r\n` line endings, the `\r` of the first line stays at the end of its content-type: fields are not trimmed |
| Scenarios.EmptyFieldAccepted | src/upload-release-asset.js:20-28 | a line with an empty middle column is accepted, and gives a descriptor with an empty name |
| Scenarios.ExtraTabRejected | src/upload-release-asset.js:20-25 | a one-line manifest of four fields, with a tab inside the trimmed text between each two, is rejected with the 3-columns message |
| Scenarios.TrailingTabTrimmed | src/upload-release-asset.js:18-29 | a tab after the last field of the whole text is removed by trim, so the line keeps three columns and is accepted |
| Scenarios.TwoColumnLineRejected | src/upload-release-asset.js:18-25 | a first line of two fields, with non-whitespace at its two ends, rejects the manifest whatever text follows its newline |
| Scenarios.RepeatedAssetRefused | src/upload-release-asset.js:43-58 | an asset listed twice is uploaded twice; with a host that refuses the second upload, the batch's only error is that refusal |

## Left out

- The GitHub client, its construction and `GITHUB_TOKEN` (line 8) are foreign library code and the environment. The upload is an abstract function from request to outcome.
- `core.getInput` is not modelled, nor its `required` check (lines 11-12, 33-35). The inputs are plain strings. `Run` requires `upload_url`, and in single-asset mode the three asset inputs, to be non-empty; the library would throw otherwise. `getInput`'s own whitespace trimming of input values is not modelled.
- Real filesystem I/O and UTF-8 decoding are not modelled (lines 17, 41, 55). A file's stat size, its bytes and its decoded text are three independent maps. Bytes are opaque `bv8` sequences. The only file error modelled is a missing path, given Node's ENOENT message. Other errno values are not modelled.
- Promise scheduling is not modelled. Dispatch is a sequential loop that attempts every descriptor, which is what the callbacks do before their first `await`. Which rejection `Promise.all` surfaces first depends on timing.
- UploadReleaseAsset.Run: states only that the reported message is one of the errors, not which one, because that depends on timing. The model picks the first.
- Completion order, cancellation and the fact that uploads run concurrently are not modelled. Timing is not visible in the trace.
- The host's answer depends on the asset's position and its request, not on which earlier uploads have actually completed when it arrives: a host that refuses a repeated name is modelled by the position at which it refuses.
- No output is ever set by the action, so there is nothing to model for it.
- Strings.IsWhitespace follows the current Unicode space separators. An engine built on an older Unicode version may differ, for example on U+180E.
- Nothing checks that a manifest column is non-empty: a line such as `a\t\tc` is accepted, with an empty name (Scenarios.EmptyFieldAccepted).
- The repository's tests are Jest mocks. They appear only as concrete scenarios.
