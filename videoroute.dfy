/** server/routes/video.js: the composer that renders a sync-mapped video
    from an image and an audio file, its finalize handler and the status query. */
module VideoRoute {
  import opened Common
  import opened JsString
  import opened Http
  import opened SyncMap
  import opened AdAttemptModel
  import opened Persistence
  import opened Finalization

  datatype VideoRequest = VideoRequest(
    userId: Option<string>, promoName: Option<string>, prompt: Option<string>,
    kind: Option<string>, imagePath: Option<string>, audioPath: Option<string>)

  datatype VideoPayload = VideoPayload(videoPath: string, syncMap: seq<Segment>, userId: string, promoName: string, kind: string)

  datatype StatusPayload = StatusPayload(isFinal: bool, attemptCount: nat)

  /** The message of the TypeError that `path.resolve` throws for an undefined path. */
  const PathArgumentError: string := "The \"paths[2]\" argument must be of type string. Received undefined"

  /** `${promoName}_syncMap.json` in the user's video folder. */
  function SyncMapPathFor(userId: string, promoName: string): string
  {
    "output/videos/" + userId + "/" + promoName + "_syncMap.json"
  }

  /** `path.join('output', 'videos', userId, `${promoName}_${Date.now()}.mp4`)`. */
  function VideoPathFor(userId: string, promoName: string, now: Time): string
  {
    "output/videos/" + userId + "/" + promoName + "_" + NatToString(now) + ".mp4"
  }

  /** The error of the promise around the ffmpeg child process. */
  function SpawnError(run: SpawnRun): string
  {
    match run
    case LaunchFailed(m) => m
    case Exited(code, _) => "FFmpeg exited with code " + IntToString(code)
    case Killed(_) => "FFmpeg exited with code null"
  }

  /** A failed ffmpeg run may leave a partial output file behind. */
  function AfterFailedRun(w: World, path: string, run: SpawnRun): World
  {
    if (run.Exited? || run.Killed?) && run.partialOutput then WriteIn(w, path, PartialMp4) else w
  }

  predicate Succeeded(run: SpawnRun)
  {
    run.Exited? && run.code == 0
  }

  predicate Accepted(req: VideoRequest)
  {
    Truthy(req.userId) && Truthy(req.promoName) && Truthy(req.prompt) && req.kind == Some("video")
  }

  /** POST `/`: the response and the state after it, for an ffmpeg run. */
  function PostVideoSpec(w: World, req: VideoRequest, now: Time, run: SpawnRun): Step<VideoPayload>
  {
    if !Accepted(req) then
      Step(Error(400, "Missing required fields or unsupported type"), w)
    else
      AcceptedSpec(w, req, now, run)
  }

  /** POST `/` once the field check has passed: load or create the record,
      count the video attempt in memory, write the sync map, then render. */
  function AcceptedSpec(w: World, req: VideoRequest, now: Time, run: SpawnRun): Step<VideoPayload>
    requires Accepted(req)
  {
    var userId := req.userId.value;
    var promoName := req.promoName.value;
    var ad := LoadOrCreate(w.ledger, userId, promoName, req.prompt, req.kind, now);
    var counted := ad.(videoAttempts := ad.videoAttempts + 1);
    var relPath := VideoPathFor(userId, promoName, now);
    var syncMap := SyncMapOf(req.prompt.value);
    var w1 := WriteIn(w, SyncMapPathFor(userId, promoName), SyncMapJson(syncMap));
    RenderSpec(w1, counted, req, relPath, syncMap, run)
  }

  /** The part of POST `/` after the sync map is written: ffmpeg needs both
      input paths, and only a run that exits with 0 saves the record. */
  function RenderSpec(w1: World, counted: AdAttempt, req: VideoRequest, relPath: string, syncMap: seq<Segment>, run: SpawnRun): Step<VideoPayload>
    requires Accepted(req)
  {
    if req.imagePath.None? || req.audioPath.None? then
      Step(ErrorWith(500, "Video rendering failed", PathArgumentError), w1)
    else if !Succeeded(run) then
      Step(ErrorWith(500, "Video rendering failed", SpawnError(run)), AfterFailedRun(w1, relPath, run))
    else
      var saved := counted.(videoPath := Some(relPath), imagePath := req.imagePath, audioPath := req.audioPath, syncMap := syncMap);
      Step(Ok(VideoPayload(relPath, syncMap, req.userId.value, req.promoName.value, "video")),
           SaveIn(WriteIn(w1, relPath, Mp4(req.imagePath.value, req.audioPath.value)), saved))
  }

  /** What a failed ffmpeg run leaves on disk: a partial output file, if it wrote one. */
  method KeepFailedOutput(store: Store, relPath: string, run: SpawnRun)
    modifies store
    ensures store.Snapshot() == AfterFailedRun(old(store.Snapshot()), relPath, run)
  {
    match run {
      case LaunchFailed(_) =>
      case Exited(_, partial) =>
        if partial {
          store.WriteFile(relPath, PartialMp4);
        }
      case Killed(partial) =>
        if partial {
          store.WriteFile(relPath, PartialMp4);
        }
    }
  }

  /** Computes the sync map of the prompt and writes it to its JSON file. */
  method WriteSyncMap(store: Store, userId: string, promoName: string, prompt: string) returns (syncMap: seq<Segment>)
    modifies store
    ensures syncMap == SyncMapOf(prompt)
    ensures store.Snapshot() == WriteIn(old(store.Snapshot()), SyncMapPathFor(userId, promoName), SyncMapJson(syncMap))
  {
    var segments := SplitPromptIntoSegments(prompt);
    syncMap := SimulateDurations(segments);
    store.WriteFile(SyncMapPathFor(userId, promoName), SyncMapJson(syncMap));
  }

  method PostVideo(store: Store, req: VideoRequest, now: Time, run: SpawnRun) returns (resp: Response<VideoPayload>)
    modifies store
    ensures Step(resp, store.Snapshot()) == PostVideoSpec(old(store.Snapshot()), req, now, run)
  {
    if !Truthy(req.userId) || !Truthy(req.promoName) || !Truthy(req.prompt) || req.kind != Some("video") {
      resp := Error(400, "Missing required fields or unsupported type");
      return;
    }
    resp := PostAccepted(store, req, now, run);
  }

  method PostAccepted(store: Store, req: VideoRequest, now: Time, run: SpawnRun) returns (resp: Response<VideoPayload>)
    requires Accepted(req)
    modifies store
    ensures Step(resp, store.Snapshot()) == AcceptedSpec(old(store.Snapshot()), req, now, run)
  {
    var userId, promoName, prompt := req.userId.value, req.promoName.value, req.prompt.value;

    var ad := store.LoadOrCreate(userId, promoName, req.prompt, req.kind, now);
    ad := ad.(videoAttempts := ad.videoAttempts + 1);

    var relPath := VideoPathFor(userId, promoName, now);
    var syncMap := WriteSyncMap(store, userId, promoName, prompt);
    resp := Render(store, ad, req, relPath, syncMap, run);
  }

  method Render(store: Store, counted: AdAttempt, req: VideoRequest, relPath: string, syncMap: seq<Segment>, run: SpawnRun)
    returns (resp: Response<VideoPayload>)
    requires Accepted(req)
    modifies store
    ensures Step(resp, store.Snapshot()) == RenderSpec(old(store.Snapshot()), counted, req, relPath, syncMap, run)
  {
    if req.imagePath.None? || req.audioPath.None? {
      resp := ErrorWith(500, "Video rendering failed", PathArgumentError);
      return;
    }
    if !Succeeded(run) {
      KeepFailedOutput(store, relPath, run);
      resp := ErrorWith(500, "Video rendering failed", SpawnError(run));
      return;
    }
    store.WriteFile(relPath, Mp4(req.imagePath.value, req.audioPath.value));

    var ad := counted;
    ad := ad.(videoPath := Some(relPath));
    ad := ad.(imagePath := req.imagePath);
    ad := ad.(audioPath := req.audioPath);
    ad := ad.(syncMap := syncMap);
    store.Save(ad);

    resp := Ok(VideoPayload(relPath, syncMap, req.userId.value, req.promoName.value, "video"));
  }

  /** POST `/finalize`: no field check, a missing field finds no record. */
  function FinalizeVideoSpec(w: World, userId: Option<string>, promoName: Option<string>, now: Time): Step<FinalizePayload>
  {
    FinalizeStep(w, AdAttemptModel.FindOne(w.ledger, userId, promoName), now)
  }

  method FinalizeVideo(store: Store, userId: Option<string>, promoName: Option<string>, now: Time)
    returns (resp: Response<FinalizePayload>)
    modifies store
    ensures Step(resp, store.Snapshot()) == FinalizeVideoSpec(old(store.Snapshot()), userId, promoName, now)
  {
    var ad := store.FindOne(userId, promoName);
    resp := FinalizeFound(store, ad, now);
  }

  /** GET `/status`: a read of the record; nothing changes. */
  method Status(store: Store, userId: Option<string>, promoName: Option<string>) returns (resp: Response<StatusPayload>)
    ensures var found := AdAttemptModel.FindOne(store.ledger, userId, promoName);
            && (found.None? <==> resp == Error(404, "Not found"))
            && (found.Some? ==> resp == Ok(StatusPayload(found.value.isFinal, found.value.attemptCount)))
  {
    var ad := store.FindOne(userId, promoName);
    if ad.None? {
      resp := Error(404, "Not found");
      return;
    }
    resp := Ok(StatusPayload(ad.value.isFinal, ad.value.attemptCount));
  }

  // ---------------------------------------------------------------------
  // Properties of the composer.

  lemma VideoRejectsRequest(w: World, req: VideoRequest, now: Time, run: SpawnRun)
    requires !Accepted(req)
    ensures PostVideoSpec(w, req, now, run) == Step(Error(400, "Missing required fields or unsupported type"), w)
  {
  }

  /** The two file names of one request differ: one ends in `.json`, the other in `.mp4`. */
  lemma SyncMapPathIsNotVideoPath(userId: string, promoName: string, now: Time)
    ensures SyncMapPathFor(userId, promoName) != VideoPathFor(userId, promoName, now)
  {
    var a, b := SyncMapPathFor(userId, promoName), VideoPathFor(userId, promoName, now);
    assert a[|a| - 1] == 'n';
    assert b[|b| - 1] == '4';
  }

  /** The sync map file is written before ffmpeg runs, so it is there
      after every accepted request, whether rendering succeeds or not. */
  lemma SyncMapWrittenWhateverTheRun(w: World, req: VideoRequest, now: Time, run: SpawnRun)
    requires Accepted(req)
    ensures var f := SyncMapPathFor(req.userId.value, req.promoName.value);
            var w' := PostVideoSpec(w, req, now, run).world;
            f in w'.files && w'.files[f] == SyncMapJson(SyncMapOf(req.prompt.value))
  {
    SyncMapPathIsNotVideoPath(req.userId.value, req.promoName.value, now);
  }

  /** A failed render is a 500 whose details carry the failure (the exit
      code, `null` for a killed process, or the launch error), and the
      record is not saved: the in-memory video attempt is lost. */
  lemma VideoFailureNotSaved(w: World, req: VideoRequest, now: Time, run: SpawnRun)
    requires Accepted(req)
    requires req.imagePath.None? || req.audioPath.None? || !Succeeded(run)
    ensures var s := PostVideoSpec(w, req, now, run);
            && s.world.ledger == w.ledger && s.world.assets == w.assets
            && s.resp.Fail? && s.resp.status == 500 && s.resp.body.error == Some("Video rendering failed")
            && s.resp.body.details == Some(if req.imagePath.None? || req.audioPath.None? then PathArgumentError else SpawnError(run))
  {
  }

  /** The exit code appears in the failure details. */
  lemma VideoExitCodeReported(w: World, req: VideoRequest, now: Time, code: int, partial: bool)
    requires Accepted(req) && req.imagePath.Some? && req.audioPath.Some? && code != 0
    ensures PostVideoSpec(w, req, now, Exited(code, partial)).resp
         == ErrorWith(500, "Video rendering failed", "FFmpeg exited with code " + IntToString(code))
  {
  }

  /** A successful render stores the video path, the request's image and
      audio paths, the sync map and one more video attempt, and nothing
      else in the record or the ledger changes. */
  lemma VideoSuccess(w: World, req: VideoRequest, now: Time, run: SpawnRun)
    requires Keyed(w.ledger)
    requires Accepted(req) && req.imagePath.Some? && req.audioPath.Some? && Succeeded(run)
    ensures var key := (req.userId.value, req.promoName.value);
            var before := LoadOrCreate(w.ledger, key.0, key.1, req.prompt, Some("video"), now);
            var path := VideoPathFor(key.0, key.1, now);
            var syncMap := SyncMapOf(req.prompt.value);
            var s := PostVideoSpec(w, req, now, run);
            && s.resp == Ok(VideoPayload(path, syncMap, key.0, key.1, "video"))
            && s.world.ledger == w.ledger[key := before.(videoAttempts := before.videoAttempts + 1, videoPath := Some(path),
                                                         imagePath := req.imagePath, audioPath := req.audioPath, syncMap := syncMap)]
            && path in s.world.files && s.world.files[path] == Mp4(req.imagePath.value, req.audioPath.value)
            && s.world.assets == w.assets
  {
  }

  lemma RenderLedger(w1: World, counted: AdAttempt, req: VideoRequest, relPath: string, syncMap: seq<Segment>, run: SpawnRun)
    requires Accepted(req)
    ensures var l := RenderSpec(w1, counted, req, relPath, syncMap, run).world.ledger;
            if req.imagePath.Some? && req.audioPath.Some? && Succeeded(run)
            then l == w1.ledger[KeyOf(counted) := counted.(videoPath := Some(relPath), imagePath := req.imagePath,
                                                          audioPath := req.audioPath, syncMap := syncMap)]
            else l == w1.ledger
  {
  }

  /** The only record the composer can store is the request's own, with
      the request's image and audio paths next to its new video path. */
  lemma PostVideoLedgerShape(w: World, req: VideoRequest, now: Time, run: SpawnRun)
    requires Keyed(w.ledger)
    ensures var l := PostVideoSpec(w, req, now, run).world.ledger;
            || l == w.ledger
            || (&& Accepted(req) && req.imagePath.Some? && req.audioPath.Some? && Succeeded(run)
                && var key := (req.userId.value, req.promoName.value);
                   var before := LoadOrCreate(w.ledger, key.0, key.1, req.prompt, req.kind, now);
                   l == w.ledger[key := before.(videoAttempts := before.videoAttempts + 1,
                                                videoPath := Some(VideoPathFor(key.0, key.1, now)),
                                                imagePath := req.imagePath, audioPath := req.audioPath,
                                                syncMap := SyncMapOf(req.prompt.value))])
  {
    if Accepted(req) {
      var key := (req.userId.value, req.promoName.value);
      var before := LoadOrCreate(w.ledger, key.0, key.1, req.prompt, req.kind, now);
      var syncMap := SyncMapOf(req.prompt.value);
      var w1 := WriteIn(w, SyncMapPathFor(key.0, key.1), SyncMapJson(syncMap));
      var counted, relPath := before.(videoAttempts := before.videoAttempts + 1), VideoPathFor(key.0, key.1, now);
      assert PostVideoSpec(w, req, now, run) == RenderSpec(w1, counted, req, relPath, syncMap, run);
      assert w1.ledger == w.ledger;
      RenderLedger(w1, counted, req, relPath, syncMap, run);
      var l := PostVideoSpec(w, req, now, run).world.ledger;
      if req.imagePath.Some? && req.audioPath.Some? && Succeeded(run) {
        assert KeyOf(counted) == key;
        assert l == w.ledger[key := counted.(videoPath := Some(relPath), imagePath := req.imagePath,
                                             audioPath := req.audioPath, syncMap := syncMap)];
      } else {
        assert l == w.ledger;
      }
    } else {
      assert PostVideoSpec(w, req, now, run).world == w;
    }
  }

  /** The composer keeps the ledger well formed. */
  lemma VideoKeepsLedgerWellFormed(w: World, req: VideoRequest, now: Time, run: SpawnRun)
    requires LedgerWellFormed(w.ledger)
    ensures LedgerWellFormed(PostVideoSpec(w, req, now, run).world.ledger)
  {
    PostVideoLedgerShape(w, req, now, run);
  }

  /** The composer leaves every image attempt count as it was. */
  lemma VideoKeepsImageAttempts(w: World, req: VideoRequest, now: Time, run: SpawnRun, k: Key)
    requires Keyed(w.ledger)
    requires k in w.ledger
    ensures var l := PostVideoSpec(w, req, now, run).world.ledger;
            k in l && l[k].imageAttempts == w.ledger[k].imageAttempts && l[k].attemptCount == w.ledger[k].attemptCount
  {
    PostVideoLedgerShape(w, req, now, run);
  }

  /** Finalize without a userId or promoName finds no record: a 404. */
  lemma FinalizeVideoMissingField(w: World, userId: Option<string>, promoName: Option<string>, now: Time)
    requires userId.None? || promoName.None?
    ensures FinalizeVideoSpec(w, userId, promoName, now) == Step(Error(404, "Ad not found"), w)
  {
  }
}
