# Universe asset processor, modelled in Dafny

The asset processor turns the media file an NFT points at into a web-sized
derivative. It also stores the original, the derivative and any audio track in
object storage, and records what it found in the NFT's database document. The
repository holds three variants of it:

- `index.mjs`, the Lambda `handler` module:
  - rewrites `ipfs://` and `ar://` URIs to gateway URLs;
  - detects the media type from a HEAD request's `content-type` header;
  - downloads the file to a temporary name made of a prefix, 48 random hex digits and the extension;
  - uploads the original under `<raw folder>/<id>.<ext>`;
  - chooses a branch: video thumbnail, gif to webp, webp resize, or image resize;
  - uploads the derivative;
  - copies the truthy fields of the result into the document, removes the temporary files and saves;
  - answers 200, answers 500, or never calls back.
- `index.ts`, the `runScript` batch script, with:
  - the header kept verbatim;
  - a three-way branch;
  - temporary files under `temp/`;
  - a loop over a storage listing.
- `index.js`, a local test script. It resizes one file and picks the codec from segment 1 of the file name split on ".".

The model is split into these modules:

- **Js**: the JavaScript semantics the code relies on: `undefined`, truthiness, template literals, ASCII `toLowerCase`, `indexOf`, `replace` with a string pattern, `split` and number formatting.
- **Hex**: the hex digits of the random bytes.
- **Naming**: temporary names and storage keys.
- **Protocol**: `ProtocolParser`.
- **Mime**: both variants of `fileType`.
- **Dispatch**: the three branch choices.
- **TempFs**: the temporary files, as the set of live paths in a class.
- **Stages**: the index.mjs `process*` functions.
- **Optimizer**: the index.mjs `webOptimizer` and `audioOptimizer`.
- **Record**: the NFT document and the handler's field merge, as a class updated in place.
- **Handler**: the index.mjs `handler`.
- **Grants**: the index.ts pipeline and `runScript`.
- **Compressor**: the index.js `compressor`.

Collaborators are parameters of the model:

- the HEAD request, the byte sniffer, the download and the storage upload are functions of the URL or key;
- each codec's outcome is a parameter;
- the 24 random bytes are a parameter;
- the database lookup and save are parameters.

Each operation that changes state is a method. It is proved equal to a specification function, and the properties are proved about those functions.

## Model

| member | source | states |
|---|---|---|
| Js.Text | index.mjs:137-141 | `.concat(v)` and `${v}` insert the string, or the text "undefined" when the value is undefined |
| Js.Truthy | index.mjs:436-471 | `if (v)` on a string property holds exactly when it is defined and non-empty |
| Js.TruthyNum | index.mjs:436-438 | `if (v)` on a number property holds exactly when it is defined and non-zero |
| Js.Slice | index.mjs:91 | `slice(0, n)` has length min(n, length) and is a prefix of the string |
| Js.LowerStr | index.mjs:118 | the ASCII lower-casing keeps the length and lower-cases each position |
| Js.IndexOf | index.mjs:118 | a found position leaves room for the whole pattern |
| Js.IndexOfSpec | index.mjs:118 | the pattern occurs at the found position and at no earlier one; None means it occurs nowhere |
| Js.IndexOfIsFirst | index.mjs:118 | the first position where the pattern occurs is the one found |
| Js.ReplaceFirst | index.mjs:118 | `replace("jpeg", "jpg")` leaves the string alone when the pattern does not occur |
| Js.ReplaceFirstSpec | index.mjs:118 | when the pattern occurs, only its first occurrence is rewritten and the text on both sides is kept |
| Js.Split | index.mjs:121-122 | `split(c)` yields at least one segment, and no segment contains c |
| Js.SplitJoin | index.mjs:121-122 | joining the segments with c gives back the string |
| Js.SplitSegments | index.mjs:121-122 | segments 0 and 1 are the stretches before the first c and between the first and second c; segment 1 is undefined when there is no c |
| Js.NatToString | index.js:42 | `${n}` is a non-empty run of decimal digits with no leading zero |
| Js.DigitsValueOfNatToString | index.js:42 | reading the digits of `${n}` gives n back |
| Js.At | index.mjs:122 | `parts[i]` of a `split` result: the part when i is below the number of parts, otherwise undefined |
| Hex.Encode | index.mjs:138 | `toString("hex")` gives two lower-case hex digits per byte |
| Hex.DecodeEncode | index.mjs:138 | decoding the hex digits recovers the random bytes |
| Hex.EncodeInjective | index.mjs:138 | distinct random draws give distinct hex strings |
| Hex.RandomHexShape | index.mjs:137-141 | 24 random bytes give exactly 48 lower-case hex digits |
| Naming.TempName | index.mjs:137-141 | a temporary name is the prefix, 48 lower-case hex digits, ".", then the extension |
| Naming.ParseTempNameRoundTrip | index.mjs:137-141 | the random draw can be read back from a temporary name |
| Naming.TempNameInjective | index.mjs:137-141 | two temporary names with one prefix coincide only for the same draw and extension |
| Naming.StorageKey | index.mjs:327 | the key `${folder}/${id}.${ext}` starts with "folder/" and ends with ".ext" |
| Naming.StorageKeyInjective | index.mjs:385 | within one folder and id, two keys are equal exactly when their extensions are |
| Protocol.ProtocolParser | index.mjs:90-99 | an `ipfs://` URL maps to the Pinata gateway plus the rest; otherwise an `ar://` URL maps to the Arweave gateway plus the rest; any other URL is unchanged |
| Protocol.RewrittenIsHttps | index.mjs:91-97 | every rewritten URL starts with "https://" |
| Protocol.NoSchemeLeft | index.mjs:90-99 | no output still starts with `ipfs://` or `ar://` |
| Protocol.ProtocolParserIdempotent | index.mjs:90-99 | parsing twice is parsing once |
| Protocol.IpfsRewriteInjective | index.mjs:91-95 | distinct `ipfs://` URIs map to distinct gateway URLs |
| Protocol.ExampleIpfs | index.mjs:91-95 | `ipfs://QmHash/1.png` maps to the gateway URL of `QmHash/1.png` |
| Protocol.ExampleArweave | index.mjs:96-97 | `ar://Tx9` maps to `https://arweave.net/Tx9` |
| Protocol.ExampleShortUrl | index.mjs:96-98 | `ipfs:` is too short for either scheme and is returned unchanged |
| Mime.SniffedContentTypeComputed | index.mjs:115 | the contentType of a sniffed descriptor is segment 0 of "[object Object]", lower-cased, which is "[object object]" |
| Mime.NormaliseMjs | index.mjs:118-122 | `mime` is the canonical header (lower-cased, first "jpeg" replaced by "jpg") and is lower-case; `contentType` is segment 0 of it and `ext` segment 1, undefined when there is no "/" |
| Mime.NormaliseMjsMime | index.mjs:118 | without "jpeg", `mime` is the lower-cased header; otherwise its first "jpeg" alone becomes "jpg" |
| Mime.FileTypeMjs | index.mjs:101-132 | the rejection codes: 0 exactly for a request error, 1 exactly for a missing or empty header, 2 exactly when the sniffer throws on an octet-stream header; an unrecognised octet-stream file gives an all-undefined descriptor; every other header is normalised |
| Mime.NormaliseTs | index.ts:56-60 | `mime` is the header verbatim, `contentType` is segment 0 lower-cased, `ext` is segment 1 unchanged |
| Mime.NormaliseTsParts | index.ts:56-60 | a `type/sub` header with a lower-case type and one "/" keeps the header as `mime`, the type and `sub` as the parts |
| Mime.FileTypeTs | index.ts:40-68 | the same codes 0 and 1; code 2 also for an unrecognised octet-stream file, because the non-null assertion fails; every other header keeps its case |
| Mime.VariantsAgreeOnCanonicalHeaders | index.ts:56-60 | for a lower-case header without "jpeg", the two variants give the same descriptor |
| Mime.NormaliseMjsRoundTrip | index.mjs:118-122 | a lower-case `type/ext` descriptor without "jpeg" is a fixed point when sent back as a header |
| Mime.NormaliseMjsParts | index.mjs:118-122 | a header that normalises to `type/ext` with one "/" has exactly those two parts |
| Mime.ExampleJpegMjs | index.mjs:118-122 | "image/JPEG" gives mime "image/jpg", contentType "image", ext "jpg" |
| Mime.ExampleJpegTs | index.ts:56-60 | "image/JPEG" keeps mime "image/JPEG" and ext "JPEG" |
| Mime.NoSlashLeavesExtUndefined | index.mjs:122 | a header without "/" leaves `ext` undefined in both variants |
| Mime.SniffedDescriptor | index.mjs:112-116 | a sniffed file's descriptor: the sniffed mime and ext, with the contentType that sniffing gives |
| Mime.CanonicalMime | index.mjs:118 | the header's `mime` in index.mjs: lower-cased, then its first "jpeg" replaced by "jpg" |
| Dispatch.DispatchMjs | index.mjs:334-358 | gives video exactly for contentType video; otherwise gif exactly for ext gif; otherwise webp exactly for an image with ext webp; otherwise image exactly for the other images; otherwise no branch |
| Dispatch.DispatchTs | index.ts:182-203 | gives video exactly for contentType video; otherwise gif for ext gif; otherwise image for contentType image; otherwise no branch; never webp |
| Dispatch.DispatchVariantsAgree | index.ts:182-203 | the index.ts chain is the index.mjs chain with webp folded into image |
| Dispatch.VideoBeatsGif | index.mjs:334-339 | a video whose ext is gif takes the video branch in both variants |
| Dispatch.GifByExtensionAlone | index.mjs:339 | "application/gif" takes the gif branch |
| Dispatch.OctetStreamNeverMedia | index.mjs:109-116 | an octet-stream file never takes the video, webp or image branch, nor the audio path; it takes the gif branch exactly when the sniffer found "gif" |
| Dispatch.UpperCaseGifHeader | index.mjs:118 | "image/GIF" takes the gif branch in index.mjs but the image branch in index.ts |
| Dispatch.AnyCaseGifMjs | index.mjs:118-122 | every capitalisation of "image/gif" normalises to the gif descriptor and takes the gif branch |
| Dispatch.BranchKey | index.js:18 | the key is segment 1 of the name split on "." |
| Dispatch.DispatchJs | index.js:18-48 | gives gif exactly for key "gif" and video exactly for key "mp4"; everything else is an image |
| Dispatch.ExampleTwoDots | index.js:18 | "a.b.gif" is keyed by "b" and is resized as an image |
| Dispatch.NoDotIsImage | index.js:18 | a name without "." has an undefined key and is treated as an image |
| Dispatch.IsAudio | index.mjs:379 | the audio optimizer goes on only when the contentType is exactly "audio" |
| Dispatch.MergeWebp | index.ts:182-203 | the index.ts branch for an index.mjs branch: webp falls into the generic image branch, every other branch is kept |
| TempFs.TempFiles.Create | index.mjs:149 | after a write stream is opened, the file exists |
| TempFs.TempFiles.Unlink | index.mjs:441 | an unlink removes the path, and it succeeds exactly when the path existed |
| Stages.ImageStage | index.mjs:252-284 | resolves exactly when Jimp succeeds and ext is defined, with the temporary name made from ext, the image contentType and the lower-cased ext |
| Stages.GifStage | index.mjs:161-218 | resolves exactly when the codec succeeds, with width 600, the fixed webp descriptor and imagemin's destination path |
| Stages.WebpStage | index.mjs:220-250 | resolves exactly when imagemin succeeds, with width 600, the fixed webp descriptor and its destination path |
| Stages.VideoStage | index.mjs:286-312 | resolves exactly when extraction, measuring and the thumbnail succeed, with the frame's dimensions and the `processImage` thumbnail of ext "jpg" |
| Stages.VideoLive | index.mjs:286-312 | the frame is added once extracted and unlinked only after a successful thumbnail, which stays |
| Stages.ProcessImage | index.mjs:252-284 | returns ImageStage; the temporary image exists afterwards when Jimp succeeded |
| Stages.ProcessGif | index.mjs:161-218 | returns GifStage; the intermediate .gif exists afterwards, and so does the webp on success |
| Stages.ProcessWebp | index.mjs:220-250 | returns WebpStage; the webp exists afterwards on success |
| Stages.ProcessVideo | index.mjs:286-312 | returns VideoStage; the frame is unlinked only after the thumbnail is made |
| Stages.FrameReleasedAfterThumbnail | index.mjs:303-306 | a successful video stage leaves exactly the thumbnail behind |
| Stages.FrameLeaksOnFailure | index.mjs:296-310 | when measuring the frame or thumbnailing fails, the frame stays |
| Stages.GifIntermediateRemains | index.mjs:169-172 | the intermediate .gif is never unlinked |
| Stages.WebpDescriptorRedetects | index.mjs:203-207 | the fixed webp descriptor is what index.mjs detects for any capitalisation of "image/webp", and it selects the webp branch |
| Stages.ImageDescriptorRedetects | index.mjs:273-277 | an image derivative's descriptor is a fixed point of the header normalisation |
| Stages.ImageDescriptor | index.mjs:273-277 | `processImage`'s descriptor: mime "image/" plus the lower-cased ext, contentType "image", the lower-cased ext |
| Stages.ImageLive | index.mjs:252-284 | after `processImage`, the resized file named with the ext is new when Jimp succeeds; nothing is new when it fails |
| Stages.GifTemp | index.mjs:169-171 | the intermediate gif is a temporary name with the extension "gif" |
| Stages.GifLive | index.mjs:161-218 | after `processGif`, the intermediate gif is always new; imagemin's webp output is new when it succeeds |
| Stages.WebpLive | index.mjs:220-250 | after `processWebp`, imagemin's output is new when it succeeds; nothing is new otherwise |
| Stages.FrameTemp | index.mjs:289-294 | the extracted frame is a temporary name with the extension "jpg" |
| Optimizer.BranchOutcome | index.mjs:334-358 | the measuring branches report the download's dimensions; no branch reports nothing; each derivative carries its branch's descriptor |
| Optimizer.WebOptimized | index.mjs:314-371 | a failed detection resolves with everything undefined. Otherwise the result is undefined exactly when one of these holds: the download fails; the upload fails; the download cannot be measured in a measuring branch; ext is undefined. A result carries the detected descriptor and the download's name. Its original was uploaded. `duration` is never set |
| Optimizer.Detect | index.mjs:318 | the detection is `fileType` of the URL's header and sniffed bytes |
| Optimizer.Aborts | index.mjs:319-362 | the web optimizer ends in its catch exactly when the download or the raw upload fails, a measuring branch cannot measure, or ext is undefined |
| Optimizer.WebLive | index.mjs:316-358 | no file is removed, except the video frame inside the video branch |
| Optimizer.WebOptimizer | index.mjs:314-371 | returns WebOptimized and leaves the files of WebLive |
| Optimizer.AudioOptimized | index.mjs:373-403 | only an "audio" descriptor is downloaded and uploaded; any other type resolves with its descriptor and no path; a path names a download whose original was uploaded under the audio key |
| Optimizer.AudioOptimizer | index.mjs:373-403 | returns AudioOptimized and adds the download to the files |
| Optimizer.AudioLive | index.mjs:373-403 | the audio optimizer adds its download exactly when the type is audio and the download succeeds |
| Optimizer.UploadedUnderPathExt | index.mjs:322-332 | the path of a result encodes the raw draw with the detected ext, and the original was uploaded under that ext |
| Optimizer.RawLeaksWhenUploadFails | index.mjs:332 | when the upload of the original fails, the result is undefined and the download stays on disk |
| Optimizer.WebDerivativeIsImage | index.mjs:334-358 | every web derivative has contentType "image" |
| Optimizer.UnprocessedTypeKeepsDownload | index.mjs:365 | a type with no branch resolves with its descriptor, the download's name and no derivative |
| Optimizer.ImageBranchSucceeds | index.mjs:345-357 | a clean image branch names the download and the resized image, and leaves both files |
| Optimizer.GifBranchSucceeds | index.mjs:339-344 | a clean gif branch has ext "gif"; it names the download and the webp, and leaves those two files and the intermediate .gif |
| Optimizer.VideoBranchSucceeds | index.mjs:334-338 | a clean video branch names the download and the thumbnail, and leaves only those two files |
| Optimizer.RawTemp | index.mjs:137-141 | the download's temporary name carries the detected ext, or the text "undefined" when there is none |
| Optimizer.RawKey | index.mjs:327 | the original's key is `<raw folder>/<id>.<ext>` |
| Optimizer.AudioKey | index.mjs:385 | an audio original's key is `<audio folder>/<id>.<ext>` |
| Optimizer.NeedsDims | index.mjs:339-348 | the gif, webp and image branches measure the download before their stage; the video branch does not |
| Optimizer.WebDescriptorFor | index.mjs:334-358 | the web descriptor each branch ends with: jpg for video, webp for gif and webp, the lower-cased ext for an image |
| Optimizer.StageLive | index.mjs:334-358 | the files the selected branch adds: the stage's own files, or none when the branch could not measure the download or no branch applies |
| Record.KeepStr | index.mjs:444 | `if (v) field = v` writes v exactly when it is truthy and keeps the field otherwise; a truthy field stays truthy |
| Record.KeepNum | index.mjs:436 | the same for number fields: a truthy v is written, a falsy one leaves the field |
| Record.Overlay | index.mjs:436-471 | every field is kept or overwritten with a truthy value; each field is KeepStr or KeepNum of its candidate |
| Record.Merged | index.mjs:436-471 | only truthy writes happen. `asset`, `webAsset` and `audioAsset` change only when the path is present, and then to their storage keys. `audioAsset` uses the web descriptor's ext. Without a web result the web fields are unchanged; without audio the audio fields are unchanged |
| Record.AudioKeyThrows | index.mjs:463-465 | the audio key reads `result.mimeType.ext`, which throws exactly when the audio has a path and the web result has no descriptor |
| Record.Candidates | index.mjs:436-471 | the value each assignment would write: the result's fields, the storage keys when a path is present, undefined where nothing is written |
| Record.MergedCopiesDims | index.mjs:436-438 | the result's width, height and duration are copied exactly when truthy and kept otherwise |
| Record.MergedCopiesMime | index.mjs:439-448 | with a descriptor, `asset` becomes the raw storage key exactly when the path is present, and mime, contentType and ext are copied exactly when truthy; without one, the four fields are kept |
| Record.MergedCopiesWeb | index.mjs:449-461 | with a web result, `webAsset` becomes the web storage key exactly when its path is non-empty, and the web dimensions and descriptor parts are copied exactly when truthy |
| Record.MergedCopiesAudio | index.mjs:462-471 | with an audio result, `audioAsset` becomes the audio key under the web ext exactly when the audio has a path, and the audio mime and ext are copied exactly when truthy |
| Record.MergedIdempotent | index.mjs:436-471 | merging the same results twice is merging them once |
| Record.OverlayIdempotent | index.mjs:436-471 | overlaying the same candidates twice is overlaying them once |
| Record.BlankMergeIsIdentity | index.mjs:436-448 | the result of a failed detection changes no field |
| Record.AudioAssetUsesWebExt | index.mjs:465 | when the two exts differ, `audioAsset` names a key under the web ext that the audio upload never wrote |
| Record.ApplyOutcome | index.mjs:440-466 | the merge throws exactly when the raw or the audio unlink targets a missing file, or when the audio key reads an undefined descriptor; otherwise exactly those two files are removed |
| Record.DimsBlock | index.mjs:436-438 | the first group of assignments: width, height and duration |
| Record.MimeBlock | index.mjs:439-448 | the second group: the raw key and the descriptor, only when there is a descriptor |
| Record.WebBlock | index.mjs:449-461 | the third group: the web fields, only when there is a web result |
| Record.AudioBlock | index.mjs:462-471 | the fourth group: the audio key and the audio descriptor, only when there is an audio result |
| Record.MergedInBlocks | index.mjs:436-471 | the four groups of assignments, in source order, give the merge |
| Record.Nft.constructor | index.mjs:407 | the loaded document holds the given references and fields |
| Record.Nft.ApplyDims | index.mjs:436-438 | the dimensions and duration are copied when truthy |
| Record.Nft.ApplyMime | index.mjs:439-448 | the download is unlinked before `asset` is set; this throws exactly when the file is missing |
| Record.Nft.ApplyWeb | index.mjs:449-461 | the web fields are copied when truthy, and `webAsset` is set from the web ext |
| Record.Nft.ApplyAudio | index.mjs:462-471 | the audio download is unlinked before `audioAsset` is set from `result.mimeType.ext` |
| Record.Nft.Apply | index.mjs:436-471 | whether it throws and the files afterwards follow ApplyOutcome; when it does not throw, the document's fields are the merge |
| Record.RawRelease | index.mjs:439-441 | the merge unlinks the raw download exactly when the result has a mimeType and a truthy path |
| Record.AudioRelease | index.mjs:462-464 | the merge unlinks the audio download exactly when there is an audio result with a truthy path |
| Handler.WebRelease | index.mjs:423-434 | the derivative the handler uploads and unlinks: the web result when its path is non-empty |
| Handler.AudioOf | index.mjs:415-418 | the audio optimizer's result, only when the document has an audio URL |
| Handler.Handled | index.mjs:405-489 | a failed lookup answers 500. A missing document or asset leaves the callback uncalled. A result of undefined leaves the callback uncalled. 200 comes exactly with a saved merge, after a successful save and upload of the web derivative |
| Handler.HandledAnswers | index.mjs:422-480 | once there is a result, the handler answers 200 exactly when the derivative's upload succeeds, each unlink finds its file, the audio key can be read and the save succeeds, and 500 otherwise; on 200 the derivative, the download and the audio download are gone |
| Handler.Finished | index.mjs:422-480 | the tail always answers, with 200 or 500. It answers 200 exactly when the web upload succeeds, the derivative exists, the merge's unlinks find their files and the audio key reads, and the save succeeds. On 200 the merge is saved and the files are those the three unlinks leave. It never adds a file |
| Handler.Finish | index.mjs:422-480 | the upload and unlink of the derivative, then the document update and the save, equal Finished |
| Handler.Handler | index.mjs:405-489 | the invocation's response, files and saved fields equal Handled |
| Handler.UndetectedAssetStillSucceeds | index.mjs:422 | an asset whose type cannot be detected is still answered with 200 and saved unchanged |
| Handler.StoredKeysWereUploaded | index.mjs:423-454 | every raw or web key written into a saved document was uploaded |
| Handler.HandledWithoutAudio | index.mjs:415-422 | without audio, a handled asset goes to the tail with the optimizer's files |
| Handler.FinishedReleasesBoth | index.mjs:423-441 | with the uploads and the save succeeding, the tail answers 200 and unlinks the derivative and the download |
| Handler.CleanRequest | index.mjs:405-489 | such a request answers 200 and removes exactly those two files |
| Handler.CleanImageRequestLeavesNoFiles | index.mjs:433-441 | a clean image request leaves no temporary file behind |
| Handler.CleanGifRequestLeavesIntermediate | index.mjs:169-172 | a clean gif request leaves exactly the intermediate .gif behind |
| Handler.CleanVideoRequestLeavesNoFiles | index.mjs:305 | a clean video request leaves no temporary file behind |
| Handler.WebKey | index.mjs:427 | the derivative's key is `<web folder>/<id>.<web ext>` |
| Handler.AssetUrl | index.mjs:411 | the web optimizer fetches the document's asset URI after gateway rewriting |
| Handler.AudioUrl | index.mjs:417 | the audio optimizer fetches the document's audio URI after gateway rewriting |
| Handler.TailLive | index.mjs:410-418 | the files after both optimizers: the web optimizer's, then the audio download when the document has an audio URI |
| Handler.AfterWebUnlink | index.mjs:433 | the files after the derivative is unlinked: its path is gone when the handler uploads one |
| Grants.StoredName | index.ts:73-76 | the download's name is "temp/", 48 hex digits, "." and the ext; it ends in ".undefined" when ext is undefined |
| Grants.ImageName | index.ts:128-130 | `processImage` always writes a name under "temp/" ending in ".jpg" |
| Grants.GifName | index.ts:94-96 | `processGif` always writes a name under "temp/" ending in ".gif" |
| Grants.FrameName | index.ts:152-154 | the video frame is a ".jpg" under "temp/" |
| Grants.ImageStageTs | index.ts:125-147 | resolves exactly when Jimp succeeds, with the measured dimensions and the .jpg; otherwise rejects with 4 |
| Grants.GifStageTs | index.ts:91-123 | resolves exactly when gifResize succeeds, with the .gif; otherwise rejects with 3 |
| Grants.VideoStageTs | index.ts:149-169 | resolves exactly when extraction and `processImage` succeed, and then with exactly `processImage`'s result; otherwise rejects with 3 |
| Grants.Caught | index.ts:184-186 | a caught rejection is undefined, and a resolution passes through |
| Grants.WebOptimizedTs | index.ts:171-211 | the result is undefined exactly when detection fails, no branch applies or measuring fails. Its dimensions are the measured ones. A derivative is a .gif exactly in the gif branch and a .jpg otherwise. The video branch carries the thumbnail's `processImage` result |
| Grants.WebLiveTs | index.ts:171-211 | a detected download is added, then the stage's files once the download is measured; nothing is removed |
| Grants.ProcessImageTs | index.ts:125-147 | returns ImageStageTs and adds the .jpg when Jimp succeeded |
| Grants.ProcessGifTs | index.ts:91-123 | returns GifStageTs and always adds the .gif |
| Grants.ProcessVideoTs | index.ts:149-169 | returns VideoStageTs and adds the frame and the thumbnail, removing neither |
| Grants.WebOptimizerTs | index.ts:171-211 | returns WebOptimizedTs and leaves the files WebLiveTs names |
| Grants.DownloadsAccumulate | index.ts:78 | no file is ever removed, and every detected download stays |
| Grants.FrameStaysTs | index.ts:156-164 | unlike index.mjs, the extracted frame stays after the thumbnail |
| Grants.WebpDetectedTs | index.ts:174-196 | an "image/webp" header is detected as the webp descriptor, which index.ts sends to its image branch |
| Grants.ImageBranchTs | index.ts:196-203 | a detected image whose measuring and `processImage` succeed resolves with the measured dimensions and the .jpg |
| Grants.WebpBecomesJpgTs | index.ts:196-202 | "image/webp" takes the image branch and comes out as a .jpg |
| Grants.KeyUrl | index.ts:227 | each URL is the CDN base followed by the key |
| Grants.KeyUrlInjective | index.ts:227 | two URLs are equal exactly when their keys are |
| Grants.Run | index.ts:223-231 | the log has one entry per listed key |
| Grants.RunLive | index.ts:219-234 | each iteration's files are added in turn |
| Grants.RunVisitsEveryKeyInOrder | index.ts:223-231 | entry i is key i's URL, with `webOptimizer`'s result from iteration i |
| Grants.RunUrlsDistinct | index.ts:223-231 | entries i and j have the same URL exactly when keys i and j are the same |
| Grants.RunKeepsFiles | index.ts:223-231 | a run keeps every file that existed before it |
| Grants.RunScript | index.ts:219-234 | a failed listing does nothing; otherwise the while loop's log is Run and the files are RunLive |
| Grants.StageTs | index.ts:182-203 | the index.ts stage of each branch: the video, gif or image stage with its own codec and draws |
| Grants.StageFilesTs | index.ts:182-203 | the files each index.ts stage adds: the frame and a successful thumbnail for video, the gif always, a successful image |
| Compressor.SizeString | index.js:42 | the size string has at least three characters |
| Compressor.SizeStringRoundTrip | index.js:42 | parsing `${width}x${height}` gives back the width and the height |
| Compressor.Compressor | index.js:11-78 | input and output end in "/" plus the same file name, under test-images and test-output. A gif key gets a gif resize to 600. An mp4 key gets an mp4 resize whose size string parses to 600 by the height. Everything else gets an image resize to 600 |
| Compressor.CompressorPathsDistinct | index.js:13-14 | input and output differ, and outputs are equal exactly when the file names are |
| Compressor.SingleDotKeyedByExtension | index.js:18 | a name with one dot, like the script's sample file, is keyed by its extension; anything but gif or mp4 is resized as an image |
| Compressor.ScriptPath | index.js:13-14 | a script path is the directory, the folder and the file name joined by "/" |

## Left out

- Network I/O is a parameter: the HEAD request, the GET and `https.get` downloads, the storage uploads and `listObjectsV2`. Each is reported as success or failure.
- The database is a parameter. `findById` is a lookup outcome and `save` is a success flag. The connection is not modelled.
- The codec libraries are not modelled: Jimp, gifResize, imagemin and its webp plugins, ffmpeg, `imageSize`, `getMediaDimensions` and `videoResize`. Their outcomes and reported dimensions are parameters.
- The byte-sniffing library `file-type` is a parameter: what it recognises and whether it throws.
- Floating-point heights are parameters rather than computed. This covers the gif and webp heights in index.mjs and `Math.round` in index.js.
- Compressor.Compressor: the video height is a natural number, so a NaN or negative height from the division is not modelled.
- Randomness: `crypto.randomBytes(24)` is a parameter.
- Promise settling:
  - a `processImage` in index.mjs whose ext is undefined throws inside a callback and never settles; it is modelled as a rejection, which leaves the handler's callback uncalled just as the never-settling promise does (see the Handler.TailLive line below for what differs);
  - a `processImage` that resolves after Jimp has already rejected is not modelled;
  - the ordering of stream `end`/`finish` events is not modelled.
- Stages.GifStage: index.mjs runs imagemin inside the `end` callback of the resized stream. If imagemin fails, or reports no output so that `res[0]` is undefined, the callback's rejection is never caught and `processGif` never settles, so `await webOptimizer` never returns, the audio optimizer never runs and the callback is never called. The model takes imagemin's output as given (`GifCodec.dest`) and does not model this hang.
- Handler.TailLive and Handler.AudioOf: take a document with `originalAudio` set and an asset whose header has no "/". The image branch then runs `processImage` with an undefined ext. Suppose Jimp succeeds. Inside the `imageSize(tempFile).then` callback, `ext.toLowerCase()` throws (index.mjs:269-277), so `await webOptimizer` (index.mjs:410-413) never returns and `audioOptimizer` (index.mjs:415-418) never runs. The model treats the throw as a rejection, so the web result is undefined and the callback is still never called. It then goes on to the audio optimizer as for any undefined web result: for this one input, Handler.Handled's files include the audio download (Optimizer.AudioLive) and the model assumes the audio GET and upload. The source makes neither.
- index.ts `temporaryStore` attaches no `error` listener to the `https.get` request. A failed request therefore emits an unhandled `error` event, which Node raises as an uncaught exception that ends the process, so `runScript` stops at that key. The model assumes every download completes and does not model the process ending.
- A `getMediaDimensions` failure inside an index.ts stage callback also never settles. The model takes the stage's measured dimensions as given.
- The database writes are not interleaved with failures. The handler's assignments and unlinks keep source order in Record.Nft.Apply, but a document left half-assigned by a throw is never saved, so only the saved fields are modelled.
- Logging is not modelled: `console.log`, `handleError` and the `toUpperCase` in the log line. That line's only effect, a throw on an undefined ext, is modelled.
- `callbackWaitsForEmptyEventLoop` is not modelled.
- `toLowerCase` is modelled for ASCII letters only.
- `path.join` normalisation is not modelled. Compressor.ScriptPath assumes a directory without a trailing separator and a file name without separators.
- Environment variables are the strings of Optimizer.Config. An unset variable, which would read "undefined" in a key, is not modelled.
- The index.js stream writes are I/O and are left out. So are the index.mjs upload bodies read with `readFileSync`. Their failures are folded into the upload's outcome.
