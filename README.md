# AdSynqAI creator suite backend in Dafny

This project models the core of the AdSynqAI backend, an Express server. The server turns a
prompt into a short promotional video in stages: an image, a voice-over, and an ffmpeg render
that combines the two. It tracks every user's attempts per ad in an `AdAttempt` record.

The model covers these parts:

- **The AdAttempt ledger.** The records are keyed by `(userId, promoName)` and follow the
  schema's defaults. Each record goes from in progress to final.
- **The route handlers:**
  - the capped image and voice stages and their finalize handlers;
  - the video composer with its sync map, its finalize handler and its status read;
  - the all-in-one `generate` orchestrator;
  - the video service, which gates on finalization and on `MAX_ATTEMPTS_PER_AD`;
  - the paginated asset listing;
  - the branded-image renderer.
- **The pure helpers:**
  - `normalizeUserId`;
  - `canRetryAd`;
  - the role and plan middleware;
  - the sentence splitter and duration simulator behind the sync map.

Each handler is an imperative method on `Persistence.Store`. The store is one object that holds
three things:

- the ledger, as a map from key to record;
- the files under `output/`, as a map from path to content;
- the Asset collection, as a sequence.

Each handler method is proved equal to a pure specification function. That function maps the
state before the call, the request and the outcomes of the outside world to a `Step`: the
response plus the state after the call. The outcomes of the outside world are the image
provider, the text-to-speech call, the ffmpeg run, the downloads and the clock. The lemmas about
these specification functions state what the routes promise: the error paths, which records,
files and assets change and how, the counters and caps, the ledger invariants, and the layout
and pagination arithmetic.

Behaviour modelled as the code has it:

- **generate.js is modelled as written:**
  - `generate` never raises `imageAttempts`.
  - A brand-new record reaches `attemptCount` 2 on its first request: the schema default of 1,
    plus the increment.
  - Its audio counter is raised without looking at `MAX_AUDIO_PER_AD`.
- **Finalization only blocks the video service.** The image, voice, video and generate routes
  ignore `isFinal`.
- **`attemptsRemaining` is always `3 - attemptCount`** in the video service, whatever the
  configured limit. With a limit above 3 it goes negative.
- **A `MAX_ATTEMPTS_PER_AD` that is not a number** makes every comparison false. Every existing
  record is then refused.
- **A failed render in `video.js` saves nothing.** The in-memory video attempt is lost, but the
  sync-map file has already been written.
- **Absolute paths in the video service are modelled relative to the server directory.** This
  covers its response and the asset's `filePath`.

## Model

| member | source | states |
|---|---|---|
| UserUtils.NormalizeUserId | server/utils/userUtils.js:2-4 | the result has no whitespace and no upper-case letter |
| UserUtils.NormalOfNormalForm | server/utils/userUtils.js:2-4 | a string without whitespace or upper-case letters is its own normal form |
| UserUtils.NormalizeIdempotent | server/utils/userUtils.js:2-4 | normalizing twice is normalizing once |
| UserUtils.NormalizeIgnoresOuterSpaces | server/utils/userUtils.js:2-4 | whitespace at either end disappears instead of becoming `_` |
| UserUtils.NormalizeJoinsWords | server/utils/userUtils.js:2-4 | a whitespace run between two words becomes exactly one `_` |
| UserUtils.NormalizeKeepsVisible | server/utils/userUtils.js:2-4 | apart from whitespace and `_`, the characters survive in order, lower-cased |
| JsString.ReplaceOneRun | server/utils/userUtils.js:3 | one maximal whitespace run between two pieces becomes exactly one replacement |
| JsString.NatToStringRoundTrip | server/routes/image.js:47 | the decimal text of a timestamp reads back as the same number |
| AdUtils.MaxAttemptsPerAd | server/utils/Adutils.js:3-5 | an unset variable gives 3, text that is not a number gives NaN, otherwise the parsed value |
| AdUtils.CanRetryAd | server/utils/Adutils.js:8-11 | no record is always allowed; a record is allowed exactly when its total count is below the limit; a NaN limit allows none |
| AdUtils.CanRetryDependsOnlyOnCount | server/utils/Adutils.js:8-11 | two records with the same total count get the same answer |
| AdUtils.DefaultLimitAllowsTwoRetries | server/utils/Adutils.js:3-11 | under the default limit an existing record may retry at counts 1 and 2 only |
| Authorize.Authorize | server/middleware/authorize.js:2-16 | no user gives 401; a role or plan outside a non-empty list gives 403; otherwise the request passes |
| Authorize.EmptyListsAdmitEveryone | server/middleware/authorize.js:2 | `authorize()` with its default empty lists admits every authenticated user |
| Authorize.RoleNotListedIsForbidden | server/middleware/authorize.js:8-13 | a role missing from a non-empty role list is a 403 |
| Authorize.PlanNotListedIsForbidden | server/middleware/authorize.js:8-13 | a plan missing from a non-empty plan list is a 403 |
| Authorize.RolelessTokenForbidden | server/middleware/authorize.js:8-13 | a token without a role fails every non-empty role list |
| AdAttemptModel.NewAttempt | server/models/adattempt.js:3-21 | a new record carries the schema defaults: no paths, an empty sync map, not final, total count 1, stage counters 0 |
| AdAttemptModel.FindOne | server/models/adattempt.js:3-5 | the record stored under the key, or none; a filter without both fields finds nothing |
| AdAttemptModel.LoadOrCreate | server/routes/image.js:30-33 | the stored record when there is one, else a pristine record of the given type |
| AdAttemptModel.LoadOrCreateWellFormed | server/routes/image.js:30-33 | the loaded or created record is well formed and carries the key it was looked up by |
| AdAttemptModel.SaveKeepsLedgerWellFormed | server/routes/image.js:77 | saving a well-formed record keeps a well-formed ledger well formed |
| AdAttemptModel.Finalize | server/routes/image.js:90-96 | a missing record is not found, a final one is a conflict, any other becomes final at `now` with every other field kept |
| AdAttemptModel.FinalizeTwiceConflicts | server/routes/image.js:92 | finalizing the finalized record is a conflict |
| AdAttemptModel.FinalizeKeepsWellFormed | server/routes/image.js:94-95 | finalization keeps a record well formed |
| AssetModel.LatestVersion | server/services/videoService.js:72-76 | none exactly when the ad has no video asset, else the largest stored video version of the ad |
| AssetModel.NextVersionIsFresh | server/services/videoService.js:78 | the next version is above every stored video version of the ad; it is 1 exactly when those versions are all 0 (or there are none), else one more than a stored one |
| AssetModel.NextVersionIgnoresOtherAds | server/services/videoService.js:72-78 | storing another ad's asset does not move the next version |
| AssetModel.NextVersionAfterStore | server/services/videoService.js:72-97 | storing a video at the next version moves the next version up by one |
| Persistence.Store.NextVideoVersion | server/services/videoService.js:72-78 | the scan of the asset collection returns the next version of the ad's videos |
| Persistence.Store.FindOne | server/routes/video.js:119 | the lookup returns what `findOne` on the ledger returns |
| Persistence.Store.LoadOrCreate | server/routes/image.js:30-33 | the loaded or created record is the ledger's load-or-create result, and the store is unchanged |
| Finalization.FinalizeFound | server/routes/image.js:90-98 | the store after the method is the one the finalize transition gives |
| Finalization.FinalizeStepOutcomes | server/routes/image.js:90-98 | 404 and 409 change nothing; otherwise only the request's record changes, becoming final at `now` |
| Finalization.FinalizeTwiceConflicts | server/routes/voice.js:81-87 | a second finalize of the same record is a 409 that changes nothing |
| Finalization.FinalizeStepKeepsLedgerWellFormed | server/routes/voice.js:81-87 | finalization keeps the ledger well formed |
| ImageRoute.PostImage | server/routes/image.js:23-82 | the response and the store after the call are those of PostImageSpec |
| ImageRoute.MaxImageDefault | server/routes/image.js:10 | MAX_IMAGE is 3 unless the variable parses to a non-zero integer |
| ImageRoute.ImageMissingFields | server/routes/image.js:25-27 | a missing userId, promoName or prompt is a 400 that changes nothing |
| ImageRoute.ImageCapReached | server/routes/image.js:36-40 | at the cap every provider outcome gives the same 429 naming the cap, and nothing changes |
| ImageRoute.ImageFailureChangesNothing | server/routes/image.js:53-72 | a failed provider call or write is an error response that changes nothing; for a checked request below the cap it is the 500 'Image generation failed' (provider) or 'Failed to save image' (write), with the error's message |
| ImageRoute.ImageSuccess | server/routes/image.js:74-81 | the record gets the new path and one more image attempt, the PNG is written, and nothing else changes |
| ImageRoute.ImageIgnoresFinalization | server/routes/image.js:30-40 | a final record below the cap still gets a new image |
| ImageRoute.ImageKeepsCap | server/routes/image.js:36-40 | no record ever passes MAX_IMAGE image attempts |
| ImageRoute.ImageKeepsLedgerWellFormed | server/routes/image.js:23-82 | the handler keeps the ledger well formed |
| ImageRoute.FinalizeImage | server/routes/image.js:84-99 | the response and the store after the call are those of FinalizeImageSpec |
| ImageRoute.FinalizeImageMissingFields | server/routes/image.js:86-88 | finalize without userId or promoName is a 400 that changes nothing |
| VoiceRoute.PostVoice | server/routes/voice.js:21-72 | the response and the store after the call are those of PostVoiceSpec |
| VoiceRoute.MaxAudioDefault | server/routes/voice.js:9 | MAX_AUDIO is 3 unless the variable parses to a non-zero integer |
| VoiceRoute.VoiceMissingFields | server/routes/voice.js:23-25 | a missing userId, promoName or prompt is a 400 that changes nothing |
| VoiceRoute.VoiceCapReached | server/routes/voice.js:34-36 | at the cap every outcome gives the same 429 and nothing changes |
| VoiceRoute.VoiceFailureChangesNothing | server/routes/voice.js:47-62 | a failed call, a non-ok status or a failed write is an error response that changes nothing; for a checked request below the cap it is the 500 'Voice generation failed' with the error's message |
| VoiceRoute.VoiceSuccess | server/routes/voice.js:64-71 | the record gets the new path and one more audio attempt, the MP3 is written, and nothing else changes |
| VoiceRoute.VoiceKeepsCap | server/routes/voice.js:34-36 | no record ever passes MAX_AUDIO audio attempts |
| VoiceRoute.VoiceKeepsLedgerWellFormed | server/routes/voice.js:21-72 | the handler keeps the ledger well formed |
| VoiceRoute.FinalizeVoice | server/routes/voice.js:75-90 | the response and the store after the call are those of FinalizeVoiceSpec |
| VoiceRoute.FinalizeVoiceMissingFields | server/routes/voice.js:77-79 | finalize without userId or promoName is a 400 that changes nothing |
| SyncMap.SplitRoundTrip | server/routes/video.js:9 | the pieces of the sentence split and the dropped separators rebuild the prompt |
| SyncMap.SeparatorsAreSpaceRuns | server/routes/video.js:9 | every dropped separator is a non-empty whitespace run |
| SyncMap.PiecesEndSentences | server/routes/video.js:9 | every piece but the last is non-empty and ends with `.`, `?` or `!` |
| SyncMap.PiecesStartAfterRun | server/routes/video.js:9 | the whole whitespace run after a sentence end is dropped |
| SyncMap.PiecesHaveNoBreak | server/routes/video.js:9 | no piece contains a sentence end followed by whitespace |
| SyncMap.NoBreakIsOnePiece | server/routes/video.js:9 | a prompt without a break is a single piece |
| SyncMap.KeepNonBlankKeepsExactly | server/routes/video.js:10 | every kept piece is a piece with a non-empty trim, and every piece with a non-empty trim is kept |
| SyncMap.KeepNonBlankOne | server/routes/video.js:10 | a single piece is kept exactly when its trim is not empty |
| SyncMap.KeepNonBlankAppend | server/routes/video.js:10 | the filter works piece by piece: the kept pieces of two stretches are the first's followed by the second's, so prompt order is kept |
| SyncMap.KeepNonBlankCounts | server/routes/video.js:10 | a repeated non-blank piece is kept as often as it occurs, and no blank piece is kept |
| SyncMap.TrimEmptyIffBlank | server/routes/video.js:10 | a piece trims to the empty string exactly when it is all whitespace |
| SyncMap.SegmentsNumbered | server/routes/video.js:8-12 | one segment per non-blank piece, numbered from 1, carrying its text and no timing |
| SyncMap.SegmentsAreNonBlankPieces | server/routes/video.js:8-12 | every segment's text is a non-blank piece of the split prompt, and every non-blank piece is some segment's text |
| SyncMap.BlankPromptHasNoSegments | server/routes/video.js:8-12 | an empty or all-whitespace prompt gives no segments |
| SyncMap.SegmentDuration | server/routes/video.js:17 | every duration lies between 2 and 6 seconds |
| SyncMap.TimelineAt | server/routes/video.js:14-22 | the timeline keeps every segment's id and text, gives it its character-length duration, and starts it where the previous one ended plus half a second |
| SyncMap.SimulateDurations | server/routes/video.js:14-22 | the loop threading `t` through the segments computes the timeline whose contents TimelineAt states |
| SyncMap.TimelineFromStep | server/routes/video.js:16-20 | each step times the current segment at `t` and moves `t` past its end plus half a second |
| SyncMap.StartTimeBounds | server/routes/video.js:19 | the i-th start time lies between 2.5·i and 6.5·i seconds |
| SyncMap.SegmentsDoNotOverlap | server/routes/video.js:16-21 | a later segment starts at least half a second after an earlier one ends |
| VideoRoute.PostVideo | server/routes/video.js:27-102 | the response and the store after the call are those of PostVideoSpec |
| VideoRoute.PostAccepted | server/routes/video.js:33-101 | after the fields are checked, the record load, the count, the sync-map write and the render give the response and store of their specification |
| VideoRoute.Render | server/routes/video.js:55-91 | the ffmpeg part of the handler gives the response and store of its specification |
| VideoRoute.RenderLedger | server/routes/video.js:87-91 | only a successful run with both input paths saves the counted record, with the paths and the sync map |
| VideoRoute.WriteSyncMap | server/routes/video.js:46-52 | the sync map of the prompt is written to its JSON file |
| VideoRoute.KeepFailedOutput | server/routes/video.js:73-84 | a failed run leaves its partial output, if any |
| VideoRoute.VideoRejectsRequest | server/routes/video.js:29-31 | a missing field or a type other than 'video' is a 400 that changes nothing |
| VideoRoute.SyncMapPathIsNotVideoPath | server/routes/video.js:42-50 | the sync-map file and the video file of a request are different paths |
| VideoRoute.SyncMapWrittenWhateverTheRun | server/routes/video.js:46-52 | after an accepted request the sync-map file is there, whether ffmpeg succeeds or not |
| VideoRoute.VideoFailureNotSaved | server/routes/video.js:81-84 | a failed render is a 500 carrying the failure, and the record is not saved |
| VideoRoute.VideoExitCodeReported | server/routes/video.js:76-79 | a non-zero exit code appears in the details |
| VideoRoute.VideoSuccess | server/routes/video.js:86-101 | success stores the video path, the request's image and audio paths, the sync map and one more video attempt, and nothing else |
| VideoRoute.PostVideoLedgerShape | server/routes/video.js:33-91 | the only record that can change is the request's own, holding the request's paths next to its new video path |
| VideoRoute.VideoKeepsLedgerWellFormed | server/routes/video.js:27-102 | the composer keeps the ledger well formed |
| VideoRoute.VideoKeepsImageAttempts | server/routes/video.js:27-102 | every stored record keeps its image attempts and its total count |
| VideoRoute.FinalizeVideo | server/routes/video.js:105-115 | the response and the store after the call are those of FinalizeVideoSpec |
| VideoRoute.FinalizeVideoMissingField | server/routes/video.js:106-108 | without userId or promoName no record is found: a 404 that changes nothing |
| VideoRoute.Status | server/routes/video.js:117-122 | 404 exactly when no record is found, else its finality and total count; nothing changes |
| Generate.PostGenerate | server/routes/generate.js:34-112 | the response and the store after the call are those of GenerateSpec |
| Generate.GenerateRejects | server/routes/generate.js:36-38 | a missing field or a type other than 'video' is a 400 that changes nothing |
| Generate.ImageStageFacts | server/routes/generate.js:45-60 | the image stage writes the PNG and saves the image path, or fails changing nothing |
| Generate.AudioStageFacts | server/routes/generate.js:62-79 | the voice stage writes the MP3, saves the audio path and one more audio attempt, or fails changing nothing |
| Generate.VideoStageSucceeds | server/routes/generate.js:81-104 | a zero exit saves the video path, the sync map and one more video attempt, and writes the MP4 |
| Generate.VideoStageFails | server/routes/generate.js:105-108 | a failed run halts the stage with the ffmpeg error text, and the record is not saved again |
| Generate.VideoStageWritesSyncMap | server/routes/generate.js:91-92 | the sync-map file is written whatever the run |
| Generate.ImageThenAudio | server/routes/generate.js:45-79 | two successful stages save the record twice under one key, the voice stage's save replacing the image stage's |
| Generate.GenerateImageFails | server/routes/generate.js:57-60 | a failed image stage is the response whatever comes later, and nothing is persisted |
| Generate.GenerateAudioFails | server/routes/generate.js:76-79 | after a failed voice stage only the image stage's save and file remain |
| Generate.GenerateVideoFails | server/routes/generate.js:105-108 | after a failed render the record keeps the image and voice saves, and the sync-map file is written |
| Generate.GenerateSuccess | server/routes/generate.js:43-104 | full success: one more total, audio and video attempt, the same image attempts, the three new paths and the sync map |
| Generate.GenerateSuccessResponse | server/routes/generate.js:111 | the response carries the three paths, the sync map, the user and the promo, and the MP4 is rendered from that image and audio |
| Generate.GenerateSaves | server/routes/generate.js:43-104 | once the image stage succeeded, only the request's record changes, to the saves of the stages that ran |
| Generate.SavedFacts | server/routes/generate.js:43-104 | the saved record keeps its key and well-formedness, and its counters move as the stages went |
| Generate.GenerateCounters | server/routes/generate.js:43-104 | over every outcome: one more total attempt once persisted, image attempts unchanged, audio and video attempts raised exactly when their stages succeeded |
| Generate.GenerateKeepsLedgerWellFormed | server/routes/generate.js:34-112 | the handler keeps the ledger well formed over every outcome |
| Generate.GenerateBypassesCapAndFinalization | server/routes/generate.js:40-75 | a final record already at the audio cap still gets one more audio attempt |
| VideoService.GenerateVideo | server/services/videoService.js:12-114 | the response and the store after the call are those of GenerateVideoSpec |
| VideoService.Stamp | server/services/videoService.js:81 | the timestamp keeps its length, every `:` and `.` becomes `-`, and every other character is kept |
| VideoService.SafeName | server/services/videoService.js:82 | the safe name has no whitespace and no upper-case letter, and its characters other than whitespace and `_` are the promo name's, in order, lower-cased |
| VideoService.SafeNameJoinsWords | server/services/videoService.js:82 | each whitespace run of the promo name, inside it or at either end, becomes exactly one `_` |
| VideoService.NewVideoAsset | server/services/videoService.js:88-97 | the new asset is a video of the request's user and promo, with prompt `N/A` when none was given |
| VideoService.ServiceRejectsRequest | server/services/videoService.js:16-24 | missing paths, then a missing promo name, are 400s, and a missing user id is a 500; none changes anything |
| VideoService.ServiceRefusesFinal | server/services/videoService.js:36-41 | a final record is a 403 whatever its count, and nothing changes |
| VideoService.ServiceRefusesAtLimit | server/services/videoService.js:43-48 | a record not below the limit is a 403 and nothing changes; a NaN limit refuses every existing record |
| VideoService.ServiceRefusesRecord | server/services/videoService.js:36-48 | a request either record gate turns away is a 403 and changes nothing |
| VideoService.CountedFacts | server/services/videoService.js:50-55 | the counted record is the stored one plus one, or a new one with count 1 |
| VideoService.RunFails | server/services/videoService.js:64-69 | a failed run is a 500 with the message, the temporary file is gone and no asset is added |
| VideoService.TempIsNotFinal | server/services/videoService.js:58-85 | the temporary and the final file names never coincide |
| VideoService.RunSucceeds | server/services/videoService.js:71-107 | the MP4 moves to its versioned name and one video asset is added at a version above every stored one |
| VideoService.ServiceCountsAttempt | server/services/videoService.js:50-69 | an admitted request keeps its counted attempt whatever ffmpeg does |
| VideoService.ServiceLedger | server/services/videoService.js:34-55 | the ledger is unchanged unless the request is admitted, and then only its counted record changes |
| VideoService.ServiceRenderFails | server/services/videoService.js:64-69 | a failed render of an admitted request: 500, no temporary file, no asset |
| VideoService.ServiceRenderSucceeds | server/services/videoService.js:71-107 | the response reports the versioned path, the next version and the count, with `attemptsRemaining` = 3 - count |
| VideoService.ServiceStaysWithinLimit | server/services/videoService.js:43-55 | with a numeric limit of at least 1, no record's count passes the limit |
| VideoService.ServiceRemainingUnderDefault | server/services/videoService.js:106 | under the default limit a successful response reports 0 to 2 attempts remaining |
| VideoService.ServiceRemainingGoesNegative | server/services/videoService.js:106 | a limit of 5 and a count of 3 report -1 attempts remaining |
| VideoService.ServiceKeepsLedgerWellFormed | server/services/videoService.js:12-114 | the service keeps the ledger well formed |
| AssetsRoute.BuildFilter | server/routes/assets.js:10-14 | the filter has a key for each truthy parameter, holding its value, and no other key |
| AssetsRoute.FilterSelectsWanted | server/routes/assets.js:10-21 | an asset matches the built filter exactly when each supplied parameter equals its field |
| AssetsRoute.Select | server/routes/assets.js:21 | every selected asset is wanted, an asset is selected exactly when it is stored and wanted, and no more are selected than are stored |
| AssetsRoute.SelectAppend | server/routes/assets.js:21 | the selection keeps the stored order: selecting from two stretches gives the first stretch's matches before the second's |
| AssetsRoute.SelectCounts | server/routes/assets.js:21-26 | each wanted asset is selected as often as it is stored and no other asset is selected, so `total` counts duplicates |
| AssetsRoute.FindMatching | server/routes/assets.js:21 | the scan with the filter returns the matching assets |
| AssetsRoute.ConsNewestFirst | server/routes/assets.js:22 | an asset no older than the head of a newest-first list can go in front and keep it newest first |
| AssetsRoute.SortNewestFirst | server/routes/assets.js:22 | the result is ordered by createdAt descending and is a permutation of its input |
| AssetsRoute.ListAssets | server/routes/assets.js:6-38 | the response is that of ListSpec on the stored assets |
| AssetsRoute.CeilDivIsCeiling | server/routes/assets.js:32 | the page count is the least integer at or above total / limit |
| AssetsRoute.ListPageFacts | server/routes/assets.js:19-33 | a page is newest first, holds only matching stored assets, at most the absolute value of the limit for a non-zero limit, and `total` counts every match |
| AssetsRoute.WindowIsSlice | server/routes/assets.js:23-24 | skip then limit gives a contiguous run starting at `skip`: for a non-zero limit it is as long as the absolute value of the limit, or shorter when fewer assets remain; a zero limit returns every asset from `skip` on, as MongoDB's `limit(0)` does |
| AssetsRoute.PagesCoverMatches | server/routes/assets.js:19-32 | with a positive limit, page p is non-empty exactly when 1 <= p <= pages |
| AssetsRoute.TotalIgnoresPage | server/routes/assets.js:26-32 | `total` and `pages` do not depend on the page asked for |
| AssetsRoute.NegativeSkipFails | server/routes/assets.js:19-36 | a page below 1 with a positive limit is answered 500 |
| AssetsRoute.DefaultPaging | server/routes/assets.js:8 | without paging parameters, page 1 holds the first ten matches, newest first |
| AdLayout.FormatKnowsPlatforms | server/routes/renderAdImage.js:8-15 | FORMAT_MAP knows exactly the six listed platforms |
| AdLayout.FormatSizes | server/routes/renderAdImage.js:8-15 | every canvas is at least 1024 x 628, and the portrait ones are 1080 x 1920 |
| AdLayout.CoverBox | server/routes/renderAdImage.js:90-103 | the reassigned draw size and its offsets are the cover box |
| AdLayout.CoverCoversCanvas | server/routes/renderAdImage.js:90-103 | the background covers the canvas, keeps the image's aspect ratio, fills it along one side and is centred |
| AdLayout.FitLogoSize | server/routes/renderAdImage.js:124-128 | the reassigned logo size is the fitted size |
| AdLayout.LogoFits | server/routes/renderAdImage.js:124-128 | the logo fits 180 x 120, is never enlarged, keeps its aspect ratio, and reaches a cap when it had to shrink |
| AdLayout.LogoInsideCanvas | server/routes/renderAdImage.js:129-133 | the logo ends 20 from the right edge and 84 above the bottom, inside every platform's canvas |
| AdLayout.TextBaselines | server/routes/renderAdImage.js:156-160 | the text loop puts line i at height - 300 + 40 i |
| AdLayout.TextInsidePanel | server/routes/renderAdImage.js:136-160 | the five lines sit 40 apart inside the shaded panel, above the ribbon |
| RenderAdImage.RenderAd | server/routes/renderAdImage.js:17-187 | the response and the store after the call are those of RenderSpec |
| RenderAdImage.RenderPlatforms | server/routes/renderAdImage.js:80-180 | the platform loop's URLs and files are those of the loop specification |
| RenderAdImage.RejectsMissingFields | server/routes/renderAdImage.js:33-35 | a missing required field is a 400 before any download, and nothing changes |
| RenderAdImage.RejectionFacts | server/routes/renderAdImage.js:33-75 | the checks before the platform loop pass exactly when the required fields are present and every needed image decodes, and each refusal is an error response |
| RenderAdImage.FailuresChangeNothing | server/routes/renderAdImage.js:40-75 | a failed background, logo or requested agent-photo download is the 503 naming that image, in download order; once all downloads succeeded, the first image that does not decode is the 500 'Failed to render branded ad' with the decoder's message; the render succeeds exactly when every needed image decodes; failures write nothing |
| RenderAdImage.PhotoOnlyWhenNamed | server/routes/renderAdImage.js:65-75 | without an agent photo URL, the photo download cannot change the outcome |
| RenderAdImage.PrefixUrls | server/routes/renderAdImage.js:82-84 | the loop pushes one URL per known platform, in request order |
| RenderAdImage.PrefixWrites | server/routes/renderAdImage.js:82-177 | only files change; each changed file is a known platform's canvas of its FORMAT_MAP size under that platform's name; every known platform's file exists |
| RenderAdImage.RenderSucceeds | server/routes/renderAdImage.js:80-182 | success means the required fields were present and every needed image decoded; it answers one URL per known platform in request order, and leaves the ledger and the assets alone |
| RenderAdImage.DefaultsRenderOnePost | server/routes/renderAdImage.js:27-30 | without platforms, userId and promoName, one instagram_post is rendered, named for `client` and `ad` |
| RenderAdImage.FileNameOfPlainPromo | server/routes/renderAdImage.js:171 | a promo name without whitespace appears unchanged between the user id and the upper-cased platform |

## Left out

- Concurrency is left out: two requests racing on one record or file are not modelled. Every
  handler runs to completion alone.
- Database and file-system failures are not modelled, apart from the explicit write failure of
  the image and voice routes. Neither are directory creation or `path.join` normalisation.
- The outside world is taken as input, not called:
  - the OpenAI and ElevenLabs calls, ffmpeg and axios downloads become outcome parameters;
  - the clock, `Date.now()` and `toISOString()`, becomes a parameter;
  - environment variables are parsed values.
- Rate limiters, logging and the message strings with emoji in successful responses are left out.
- Canvas drawing is reduced to the laid-out file, and JSON and PNG encoding are left out. The
  file records the canvas size, the draw boxes, the text lines and the flags.
- Floating-point rounding is left out. Durations and layout arithmetic are exact rationals.
- String handling is simplified:
  - `toLowerCase` and `toUpperCase` only change ASCII letters;
  - string lengths count characters, not UTF-16 units.
- Request fields of the wrong JSON type (numbers, objects, `null` where a default applies) are
  not modelled. Neither are platform names that reach `Object.prototype` properties.
- AssetsRoute.ListSpec has these gaps:
  - the `search` filter (a case-insensitive regular expression on `prompt`) is not modelled;
  - `page` and `limit` that parse to NaN are not modelled;
  - the order of assets with equal `createdAt` is that of a stable sort, which MongoDB does not
    promise.
- AssetsRoute.ListSpec models `pages` for a limit of 0 as absent. `Math.ceil` gives Infinity or NaN there, and JSON writes either as `null`.
- AssetsRoute.ListSpec models MongoDB's refusal of a negative `skip` as the route's 500. A negative `limit` returns that many documents, as MongoDB's single-batch limit does.
- AdAttemptModel.FindOne assumes that a filter whose `userId` or `promoName` is undefined matches no record. Mongoose may instead drop the undefined key, and then the lookup would match any record with the other field. The video finalize and status handlers (server/routes/video.js:106-108 and 118-120) do no field check, so their 404 for a missing field rests on this assumption.
- RenderAdImage.RenderSpec assumes that decoded images have positive width and height.
- The absolute paths of the video service and the renderer are not modelled. They are written
  relative to the server directory.
