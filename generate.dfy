/** The POST `/` handler of server/routes/generate.js: one request runs the
    image stage, the voice stage and the ffmpeg composition in that order on
    the request's AdAttempt record, and stops at the first stage that fails. */
module Generate {
  import opened Common
  import opened JsString
  import opened Http
  import opened SyncMap
  import opened AdAttemptModel
  import opened Persistence
  import ImageRoute
  import VoiceRoute
  import VideoRoute

  datatype GenerateRequest = GenerateRequest(
    userId: Option<string>, promoName: Option<string>, prompt: Option<string>,
    imageStyle: Option<string>, voiceStyle: Option<string>, kind: Option<string>)

  /** The clock readings of one request: when the record is created, and the
      `Date.now()` of each stage's file name. */
  datatype Clock = Clock(created: Time, image: Time, audio: Time, video: Time)

  datatype GeneratePayload = GeneratePayload(
    imagePath: string, imageUrl: string,
    audioPath: string, audioUrl: string,
    videoPath: string, syncMap: seq<Segment>,
    userId: string, promoName: string)

  /** How a stage ends: it saved the record (returned here) and produced the
      file at `path`, or it failed with the error's message. */
  datatype StageEnd = Advanced(ad: AdAttempt, path: string) | Halted(details: string)

  datatype StageStep = StageStep(end: StageEnd, world: World)

  predicate Accepted(req: GenerateRequest)
  {
    Truthy(req.userId) && Truthy(req.promoName) && Truthy(req.prompt) && req.kind == Some("video")
  }

  /** The record as each stage saves it. */
  function WithImage(ad: AdAttempt, path: string): AdAttempt
  {
    ad.(imagePath := Some(path))
  }

  function WithAudio(ad: AdAttempt, path: string): AdAttempt
  {
    ad.(audioPath := Some(path), audioAttempts := ad.audioAttempts + 1)
  }

  function WithVideo(ad: AdAttempt, path: string, syncMap: seq<Segment>): AdAttempt
  {
    ad.(videoPath := Some(path), syncMap := syncMap, videoAttempts := ad.videoAttempts + 1)
  }

  /** The image stage: the bytes are written and the image path saved in
      the record; the image attempt counter is not touched. */
  function ImageStage(w: World, ad: AdAttempt, userId: string, now: Time, outcome: StageOutcome): StageStep
  {
    match outcome
    case Generated(data) =>
      var path := ImageRoute.ImagePathFor(userId, now);
      var ad' := WithImage(ad, path);
      StageStep(Advanced(ad', path), SaveIn(WriteIn(w, path, ImagePng(data)), ad'))
    case ProviderFailed(m) => StageStep(Halted(m), w)
    case WriteFailed(m) => StageStep(Halted(m), w)
  }

  /** The voice stage: the bytes are written, the audio path saved and the
      audio attempt counter raised by one. */
  function AudioStage(w: World, ad: AdAttempt, userId: string, now: Time, outcome: StageOutcome): StageStep
  {
    match outcome
    case Generated(data) =>
      var path := VoiceRoute.AudioPathFor(userId, now);
      var ad' := WithAudio(ad, path);
      StageStep(Advanced(ad', path), SaveIn(WriteIn(w, path, AudioMp3(data)), ad'))
    case ProviderFailed(m) => StageStep(Halted(m), w)
    case WriteFailed(m) => StageStep(Halted(m), w)
  }

  /** The error of this handler's promise around ffmpeg (`FFmpeg exit ${code}`). */
  function SpawnError(run: SpawnRun): string
  {
    match run
    case LaunchFailed(m) => m
    case Exited(code, _) => "FFmpeg exit " + IntToString(code)
    case Killed(_) => "FFmpeg exit null"
  }

  /** The video stage: the sync map file is written first; a run that exits
      with 0 saves the video path, the sync map and one more video attempt. */
  function VideoStage(w: World, ad: AdAttempt, userId: string, promoName: string, prompt: string,
                      imagePath: string, audioPath: string, now: Time, run: SpawnRun): StageStep
  {
    var syncMap := SyncMapOf(prompt);
    var w1 := WriteIn(w, VideoRoute.SyncMapPathFor(userId, promoName), SyncMapJson(syncMap));
    var path := VideoRoute.VideoPathFor(userId, promoName, now);
    if VideoRoute.Succeeded(run) then
      var ad' := WithVideo(ad, path, syncMap);
      StageStep(Advanced(ad', path), SaveIn(WriteIn(w1, path, Mp4(imagePath, audioPath)), ad'))
    else
      StageStep(Halted(SpawnError(run)), VideoRoute.AfterFailedRun(w1, path, run))
  }

  /** The record the request works on: the stored one or a new one of type
      'video', with its total attempt count raised by one in memory. */
  function Touched(w: World, req: GenerateRequest, clock: Clock): AdAttempt
    requires Accepted(req)
  {
    var ad := LoadOrCreate(w.ledger, req.userId.value, req.promoName.value, req.prompt, req.kind, clock.created);
    ad.(attemptCount := ad.attemptCount + 1)
  }

  /** POST `/` for given provider outcomes and ffmpeg run. */
  function GenerateSpec(w: World, req: GenerateRequest, origin: Origin, clock: Clock,
                        image: StageOutcome, audio: StageOutcome, run: SpawnRun): Step<GeneratePayload>
  {
    if !Accepted(req) then
      Step(Error(400, "Missing required fields or unsupported type"), w)
    else
      AfterImage(ImageStage(w, Touched(w, req, clock), req.userId.value, clock.image, image), req, origin, clock, audio, run)
  }

  /** What follows the image stage: its failure is the response, its success
      leads to the voice stage. */
  function AfterImage(s1: StageStep, req: GenerateRequest, origin: Origin, clock: Clock,
                      audio: StageOutcome, run: SpawnRun): Step<GeneratePayload>
    requires Accepted(req)
  {
    match s1.end
    case Halted(d) => Step(ErrorWith(500, "Image generation failed", d), s1.world)
    case Advanced(ad1, imagePath) =>
      AfterAudio(AudioStage(s1.world, ad1, req.userId.value, clock.audio, audio), imagePath, req, origin, clock, run)
  }

  function AfterAudio(s2: StageStep, imagePath: string, req: GenerateRequest, origin: Origin, clock: Clock,
                      run: SpawnRun): Step<GeneratePayload>
    requires Accepted(req)
  {
    match s2.end
    case Halted(d) => Step(ErrorWith(500, "Voice generation failed", d), s2.world)
    case Advanced(ad2, audioPath) =>
      var userId, promoName, prompt := req.userId.value, req.promoName.value, req.prompt.value;
      AfterVideo(VideoStage(s2.world, ad2, userId, promoName, prompt, imagePath, audioPath, clock.video, run),
                 imagePath, audioPath, req, origin, clock)
  }

  function AfterVideo(s3: StageStep, imagePath: string, audioPath: string, req: GenerateRequest, origin: Origin, clock: Clock): Step<GeneratePayload>
    requires Accepted(req)
  {
    match s3.end
    case Halted(d) => Step(ErrorWith(500, "Video rendering failed", d), s3.world)
    case Advanced(_, videoPath) =>
      var userId := req.userId.value;
      Step(Ok(GeneratePayload(
             imagePath, Url(origin, "/images/" + userId + "/" + ImageRoute.ImageName(clock.image)),
             audioPath, Url(origin, "/audio/" + userId + "/" + VoiceRoute.AudioName(clock.audio)),
             videoPath, SyncMapOf(req.prompt.value), userId, req.promoName.value)),
           s3.world)
  }

  // ---------------------------------------------------------------------
  // The handler, one stage at a time.

  method RunImageStage(store: Store, ad: AdAttempt, userId: string, now: Time, outcome: StageOutcome) returns (end: StageEnd)
    modifies store
    ensures StageStep(end, store.Snapshot()) == ImageStage(old(store.Snapshot()), ad, userId, now, outcome)
  {
    match outcome {
      case ProviderFailed(m) =>
        end := Halted(m);
      case WriteFailed(m) =>
        end := Halted(m);
      case Generated(data) =>
        var imagePath := "output/images/" + userId + "/" + ImageRoute.ImageName(now);
        store.WriteFile(imagePath, ImagePng(data));
        var saved := ad.(imagePath := Some(imagePath));
        store.Save(saved);
        end := Advanced(saved, imagePath);
    }
  }

  method RunAudioStage(store: Store, ad: AdAttempt, userId: string, now: Time, outcome: StageOutcome) returns (end: StageEnd)
    modifies store
    ensures StageStep(end, store.Snapshot()) == AudioStage(old(store.Snapshot()), ad, userId, now, outcome)
  {
    match outcome {
      case ProviderFailed(m) =>
        end := Halted(m);
      case WriteFailed(m) =>
        end := Halted(m);
      case Generated(data) =>
        var audioPath := "output/audio/" + userId + "/" + VoiceRoute.AudioName(now);
        store.WriteFile(audioPath, AudioMp3(data));
        var saved := ad.(audioPath := Some(audioPath));
        saved := saved.(audioAttempts := saved.audioAttempts + 1);
        store.Save(saved);
        end := Advanced(saved, audioPath);
    }
  }

  method RunVideoStage(store: Store, ad: AdAttempt, userId: string, promoName: string, prompt: string,
                       imagePath: string, audioPath: string, now: Time, run: SpawnRun) returns (end: StageEnd)
    modifies store
    ensures StageStep(end, store.Snapshot()) == VideoStage(old(store.Snapshot()), ad, userId, promoName, prompt, imagePath, audioPath, now, run)
  {
    var syncMap := VideoRoute.WriteSyncMap(store, userId, promoName, prompt);
    var relVid := VideoRoute.VideoPathFor(userId, promoName, now);
    if !VideoRoute.Succeeded(run) {
      VideoRoute.KeepFailedOutput(store, relVid, run);
      end := Halted(SpawnError(run));
      return;
    }
    store.WriteFile(relVid, Mp4(imagePath, audioPath));
    var saved := ad.(videoPath := Some(relVid));
    saved := saved.(syncMap := syncMap);
    saved := saved.(videoAttempts := saved.videoAttempts + 1);
    store.Save(saved);
    end := Advanced(saved, relVid);
  }

  /** The image stage and everything after it. */
  method FromImage(store: Store, ad: AdAttempt, req: GenerateRequest, origin: Origin, clock: Clock,
                   image: StageOutcome, audio: StageOutcome, run: SpawnRun) returns (resp: Response<GeneratePayload>)
    requires Accepted(req)
    modifies store
    ensures Step(resp, store.Snapshot())
         == AfterImage(ImageStage(old(store.Snapshot()), ad, req.userId.value, clock.image, image), req, origin, clock, audio, run)
  {
    var imageEnd := RunImageStage(store, ad, req.userId.value, clock.image, image);
    if imageEnd.Halted? {
      resp := ErrorWith(500, "Image generation failed", imageEnd.details);
      return;
    }
    resp := FromAudio(store, imageEnd.ad, imageEnd.path, req, origin, clock, audio, run);
  }

  /** The voice stage and everything after it. */
  method FromAudio(store: Store, ad: AdAttempt, imagePath: string, req: GenerateRequest, origin: Origin, clock: Clock,
                   audio: StageOutcome, run: SpawnRun) returns (resp: Response<GeneratePayload>)
    requires Accepted(req)
    modifies store
    ensures Step(resp, store.Snapshot())
         == AfterAudio(AudioStage(old(store.Snapshot()), ad, req.userId.value, clock.audio, audio), imagePath, req, origin, clock, run)
  {
    var audioEnd := RunAudioStage(store, ad, req.userId.value, clock.audio, audio);
    if audioEnd.Halted? {
      resp := ErrorWith(500, "Voice generation failed", audioEnd.details);
      return;
    }
    resp := FromVideo(store, audioEnd.ad, imagePath, audioEnd.path, req, origin, clock, run);
  }

  /** The video stage and the response. */
  method FromVideo(store: Store, ad: AdAttempt, imagePath: string, audioPath: string, req: GenerateRequest,
                   origin: Origin, clock: Clock, run: SpawnRun) returns (resp: Response<GeneratePayload>)
    requires Accepted(req)
    modifies store
    ensures Step(resp, store.Snapshot())
         == AfterVideo(VideoStage(old(store.Snapshot()), ad, req.userId.value, req.promoName.value, req.prompt.value,
                                  imagePath, audioPath, clock.video, run), imagePath, audioPath, req, origin, clock)
  {
    var userId, promoName, prompt := req.userId.value, req.promoName.value, req.prompt.value;
    var videoEnd := RunVideoStage(store, ad, userId, promoName, prompt, imagePath, audioPath, clock.video, run);
    if videoEnd.Halted? {
      resp := ErrorWith(500, "Video rendering failed", videoEnd.details);
      return;
    }
    var imageUrl := Url(origin, "/images/" + userId + "/" + ImageRoute.ImageName(clock.image));
    var audioUrl := Url(origin, "/audio/" + userId + "/" + VoiceRoute.AudioName(clock.audio));
    resp := Ok(GeneratePayload(imagePath, imageUrl, audioPath, audioUrl, videoEnd.path, SyncMapOf(prompt), userId, promoName));
  }

  /** A request without userId, promoName or prompt, or whose type is not
      'video', is a 400 that loads and changes nothing. */
  lemma GenerateRejects(w: World, req: GenerateRequest, origin: Origin, clock: Clock,
                        image: StageOutcome, audio: StageOutcome, run: SpawnRun)
    requires !Accepted(req)
    ensures GenerateSpec(w, req, origin, clock, image, audio, run) == Step(Error(400, "Missing required fields or unsupported type"), w)
  {
  }

  /** A request that passed the field check: load or create the record,
      count the attempt in memory, and run the stages. */
  method RunAccepted(store: Store, req: GenerateRequest, origin: Origin, clock: Clock,
                     image: StageOutcome, audio: StageOutcome, run: SpawnRun) returns (resp: Response<GeneratePayload>)
    requires Accepted(req)
    modifies store
    ensures Step(resp, store.Snapshot()) == GenerateSpec(old(store.Snapshot()), req, origin, clock, image, audio, run)
  {
    var ad := store.LoadOrCreate(req.userId.value, req.promoName.value, req.prompt, req.kind, clock.created);
    ad := ad.(attemptCount := ad.attemptCount + 1);
    assert ad == Touched(store.Snapshot(), req, clock);
    resp := FromImage(store, ad, req, origin, clock, image, audio, run);
  }

  method PostGenerate(store: Store, req: GenerateRequest, origin: Origin, clock: Clock,
                      image: StageOutcome, audio: StageOutcome, run: SpawnRun) returns (resp: Response<GeneratePayload>)
    modifies store
    ensures Step(resp, store.Snapshot()) == GenerateSpec(old(store.Snapshot()), req, origin, clock, image, audio, run)
  {
    if !Truthy(req.userId) || !Truthy(req.promoName) || !Truthy(req.prompt) || req.kind != Some("video") {
      resp := Error(400, "Missing required fields or unsupported type");
      GenerateRejects(store.Snapshot(), req, origin, clock, image, audio, run);
      return;
    }
    resp := RunAccepted(store, req, origin, clock, image, audio, run);
  }

  /** What each stage leaves behind, one stage at a time. */
  lemma ImageStageFacts(w: World, ad: AdAttempt, userId: string, now: Time, outcome: StageOutcome)
    ensures var s, path := ImageStage(w, ad, userId, now, outcome), ImageRoute.ImagePathFor(userId, now);
            && s.world.assets == w.assets
            && (outcome.Generated? ==>
                  && s.end == Advanced(WithImage(ad, path), path)
                  && s.world.ledger == w.ledger[KeyOf(ad) := WithImage(ad, path)]
                  && s.world.files == w.files[path := ImagePng(outcome.data)])
            && (!outcome.Generated? ==> s == StageStep(Halted(outcome.message), w))
  {
  }

  lemma AudioStageFacts(w: World, ad: AdAttempt, userId: string, now: Time, outcome: StageOutcome)
    ensures var s, path := AudioStage(w, ad, userId, now, outcome), VoiceRoute.AudioPathFor(userId, now);
            var ad' := WithAudio(ad, path);
            && s.world.assets == w.assets
            && (outcome.Generated? ==>
                  && s.end == Advanced(ad', path)
                  && s.world.ledger == w.ledger[KeyOf(ad) := ad']
                  && s.world.files == w.files[path := AudioMp3(outcome.data)])
            && (!outcome.Generated? ==> s == StageStep(Halted(outcome.message), w))
  {
  }

  lemma VideoStageSucceeds(w: World, ad: AdAttempt, userId: string, promoName: string, prompt: string,
                           imagePath: string, audioPath: string, now: Time, run: SpawnRun)
    requires VideoRoute.Succeeded(run)
    ensures var s, path := VideoStage(w, ad, userId, promoName, prompt, imagePath, audioPath, now, run), VideoRoute.VideoPathFor(userId, promoName, now);
            var ad' := WithVideo(ad, path, SyncMapOf(prompt));
            && s.end == Advanced(ad', path)
            && s.world.ledger == w.ledger[KeyOf(ad) := ad']
            && path in s.world.files && s.world.files[path] == Mp4(imagePath, audioPath)
            && s.world.assets == w.assets
  {
  }

  lemma VideoStageFails(w: World, ad: AdAttempt, userId: string, promoName: string, prompt: string,
                        imagePath: string, audioPath: string, now: Time, run: SpawnRun)
    requires !VideoRoute.Succeeded(run)
    ensures var s := VideoStage(w, ad, userId, promoName, prompt, imagePath, audioPath, now, run);
            s.end == Halted(SpawnError(run)) && s.world.ledger == w.ledger && s.world.assets == w.assets
  {
  }

  /** The sync map file is in place after the video stage, whatever the run. */
  lemma VideoStageWritesSyncMap(w: World, ad: AdAttempt, userId: string, promoName: string, prompt: string,
                                imagePath: string, audioPath: string, now: Time, run: SpawnRun)
    ensures var s := VideoStage(w, ad, userId, promoName, prompt, imagePath, audioPath, now, run);
            var smPath := VideoRoute.SyncMapPathFor(userId, promoName);
            smPath in s.world.files && s.world.files[smPath] == SyncMapJson(SyncMapOf(prompt))
  {
    VideoRoute.SyncMapPathIsNotVideoPath(userId, promoName, now);
  }

  /** The handler's continuations, one stage at a time. */
  lemma GenerateUnfolds(w: World, req: GenerateRequest, origin: Origin, clock: Clock,
                        image: StageOutcome, audio: StageOutcome, run: SpawnRun)
    requires Accepted(req)
    ensures GenerateSpec(w, req, origin, clock, image, audio, run)
         == AfterImage(ImageStage(w, Touched(w, req, clock), req.userId.value, clock.image, image), req, origin, clock, audio, run)
  {
  }

  lemma AfterImageUnfolds(s1: StageStep, req: GenerateRequest, origin: Origin, clock: Clock, audio: StageOutcome, run: SpawnRun)
    requires Accepted(req) && s1.end.Advanced?
    ensures AfterImage(s1, req, origin, clock, audio, run)
         == AfterAudio(AudioStage(s1.world, s1.end.ad, req.userId.value, clock.audio, audio), s1.end.path, req, origin, clock, run)
  {
  }

  lemma AfterAudioUnfolds(s2: StageStep, imagePath: string, req: GenerateRequest, origin: Origin, clock: Clock, run: SpawnRun)
    requires Accepted(req) && s2.end.Advanced?
    ensures AfterAudio(s2, imagePath, req, origin, clock, run)
         == AfterVideo(VideoStage(s2.world, s2.end.ad, req.userId.value, req.promoName.value, req.prompt.value,
                                  imagePath, s2.end.path, clock.video, run), imagePath, s2.end.path, req, origin, clock)
  {
  }

  // ---------------------------------------------------------------------
  // Properties of the orchestrator. `Before` is the record the request
  // loads or creates (stored under the request's own key when the ledger is
  // keyed, see LoadOrCreateWellFormed); `Touched` adds the in-memory total
  // attempt.

  function Before(w: World, req: GenerateRequest, clock: Clock): AdAttempt
    requires Accepted(req)
  {
    LoadOrCreate(w.ledger, req.userId.value, req.promoName.value, req.prompt, req.kind, clock.created)
  }

  /** The record as the image stage saves it: one more total attempt and
      the new image path. */
  function ImageSaved(w: World, req: GenerateRequest, clock: Clock): AdAttempt
    requires Accepted(req)
  {
    WithImage(Touched(w, req, clock), ImageRoute.ImagePathFor(req.userId.value, clock.image))
  }

  /** ... then as the voice stage saves it: the new audio path and one more
      audio attempt. */
  function AudioSaved(w: World, req: GenerateRequest, clock: Clock): AdAttempt
    requires Accepted(req)
  {
    WithAudio(ImageSaved(w, req, clock), VoiceRoute.AudioPathFor(req.userId.value, clock.audio))
  }

  /** ... then as a successful render saves it: the video path, the sync map
      of the prompt and one more video attempt. */
  function VideoSaved(w: World, req: GenerateRequest, clock: Clock): AdAttempt
    requires Accepted(req)
  {
    WithVideo(AudioSaved(w, req, clock), VideoRoute.VideoPathFor(req.userId.value, req.promoName.value, clock.video), SyncMapOf(req.prompt.value))
  }

  /** The record the handler leaves in the ledger once its image stage
      succeeded: the saves of the stages the run got through. */
  function Saved(w: World, req: GenerateRequest, clock: Clock, audio: StageOutcome, run: SpawnRun): AdAttempt
    requires Accepted(req)
  {
    if !audio.Generated? then ImageSaved(w, req, clock)
    else if !VideoRoute.Succeeded(run) then AudioSaved(w, req, clock)
    else VideoSaved(w, req, clock)
  }

  /** A failed image stage is the response, whatever the later stages would
      do, and nothing is persisted: not the image, and not the total attempt
      counted in memory. */
  lemma GenerateImageFails(w: World, req: GenerateRequest, origin: Origin, clock: Clock,
                           image: StageOutcome, audio: StageOutcome, run: SpawnRun)
    requires Accepted(req) && !image.Generated?
    ensures GenerateSpec(w, req, origin, clock, image, audio, run) == Step(ErrorWith(500, "Image generation failed", image.message), w)
  {
    ImageStageFacts(w, Touched(w, req, clock), req.userId.value, clock.image, image);
  }

  /** A failed voice stage is the response whatever ffmpeg would do; what
      stays persisted is the image stage's save: the image file, and the
      record with its image path and one more total attempt. */
  lemma GenerateAudioFails(w: World, req: GenerateRequest, origin: Origin, clock: Clock,
                           data: Bytes, audio: StageOutcome, run: SpawnRun)
    requires Accepted(req) && !audio.Generated?
    ensures var before, ip := Before(w, req, clock), ImageRoute.ImagePathFor(req.userId.value, clock.image);
            var s := GenerateSpec(w, req, origin, clock, Generated(data), audio, run);
            && s.resp == ErrorWith(500, "Voice generation failed", audio.message)
            && s.world.ledger == w.ledger[KeyOf(before) := ImageSaved(w, req, clock)]
            && s.world.files == w.files[ip := ImagePng(data)]
            && s.world.assets == w.assets
  {
    var userId := req.userId.value;
    var s1 := ImageStage(w, Touched(w, req, clock), userId, clock.image, Generated(data));
    ImageStageFacts(w, Touched(w, req, clock), userId, clock.image, Generated(data));
    var s2 := AudioStage(s1.world, s1.end.ad, userId, clock.audio, audio);
    AudioStageFacts(s1.world, s1.end.ad, userId, clock.audio, audio);
    GenerateUnfolds(w, req, origin, clock, Generated(data), audio, run);
    AfterImageUnfolds(s1, req, origin, clock, audio, run);
  }

  /** A record saved twice under one key: the second save replaces the first. */
  lemma SaveTwice(l: Ledger, first: AdAttempt, second: AdAttempt)
    requires KeyOf(first) == KeyOf(second)
    ensures l[KeyOf(first) := first][KeyOf(second) := second] == l[KeyOf(second) := second]
  {
  }

  /** The image and voice stages both succeeding, as the video stage sees
      them: the record saved twice under the same key, the second save
      replacing the first. */
  lemma ImageThenAudio(w: World, req: GenerateRequest, clock: Clock, imageData: Bytes, audioData: Bytes)
    requires Accepted(req)
    ensures var before, userId := Before(w, req, clock), req.userId.value;
            var ip, ap := ImageRoute.ImagePathFor(userId, clock.image), VoiceRoute.AudioPathFor(userId, clock.audio);
            var s1 := ImageStage(w, Touched(w, req, clock), userId, clock.image, Generated(imageData));
            var s2 := AudioStage(s1.world, s1.end.ad, userId, clock.audio, Generated(audioData));
            && s1.end == Advanced(ImageSaved(w, req, clock), ip)
            && s2.end == Advanced(AudioSaved(w, req, clock), ap)
            && s2.world.ledger == w.ledger[KeyOf(before) := AudioSaved(w, req, clock)]
            && s2.world.assets == w.assets
  {
    var before, userId := Before(w, req, clock), req.userId.value;
    var s1 := ImageStage(w, Touched(w, req, clock), userId, clock.image, Generated(imageData));
    ImageStageFacts(w, Touched(w, req, clock), userId, clock.image, Generated(imageData));
    var s2 := AudioStage(s1.world, s1.end.ad, userId, clock.audio, Generated(audioData));
    AudioStageFacts(s1.world, s1.end.ad, userId, clock.audio, Generated(audioData));
    SaveTwice(w.ledger, ImageSaved(w, req, clock), AudioSaved(w, req, clock));
  }

  /** A failed render is the response; the record keeps the image and audio
      stages' saves (its audio attempt raised by one), its video path, sync
      map and video attempts are unchanged, and the sync map file is written. */
  lemma GenerateVideoFails(w: World, req: GenerateRequest, origin: Origin, clock: Clock,
                           imageData: Bytes, audioData: Bytes, run: SpawnRun)
    requires Accepted(req) && !VideoRoute.Succeeded(run)
    ensures var before := Before(w, req, clock);
            var ip, ap := ImageRoute.ImagePathFor(req.userId.value, clock.image), VoiceRoute.AudioPathFor(req.userId.value, clock.audio);
            var s := GenerateSpec(w, req, origin, clock, Generated(imageData), Generated(audioData), run);
            var smPath := VideoRoute.SyncMapPathFor(req.userId.value, req.promoName.value);
            && s.resp == ErrorWith(500, "Video rendering failed", SpawnError(run))
            && s.world.ledger == w.ledger[KeyOf(before) := AudioSaved(w, req, clock)]
            && smPath in s.world.files && s.world.files[smPath] == SyncMapJson(SyncMapOf(req.prompt.value))
            && s.world.assets == w.assets
  {
    var userId, promoName, prompt := req.userId.value, req.promoName.value, req.prompt.value;
    var s1 := ImageStage(w, Touched(w, req, clock), userId, clock.image, Generated(imageData));
    var s2 := AudioStage(s1.world, s1.end.ad, userId, clock.audio, Generated(audioData));
    var s3 := VideoStage(s2.world, s2.end.ad, userId, promoName, prompt, s1.end.path, s2.end.path, clock.video, run);
    VideoStageFails(s2.world, s2.end.ad, userId, promoName, prompt, s1.end.path, s2.end.path, clock.video, run);
    VideoStageWritesSyncMap(s2.world, s2.end.ad, userId, promoName, prompt, s1.end.path, s2.end.path, clock.video, run);
    GenerateUnfolds(w, req, origin, clock, Generated(imageData), Generated(audioData), run);
    AfterImageUnfolds(s1, req, origin, clock, Generated(audioData), run);
    AfterAudioUnfolds(s2, s1.end.path, req, origin, clock, run);
    ImageThenAudio(w, req, clock, imageData, audioData);
  }

  /** All three stages succeed: the record has one more total attempt, one
      more audio attempt, one more video attempt, the same image attempts,
      and the new image, audio and video paths and sync map. */
  lemma GenerateSuccess(w: World, req: GenerateRequest, origin: Origin, clock: Clock,
                        imageData: Bytes, audioData: Bytes, run: SpawnRun)
    requires Accepted(req) && VideoRoute.Succeeded(run)
    ensures var before := Before(w, req, clock);
            var userId, promoName := req.userId.value, req.promoName.value;
            var ip, ap := ImageRoute.ImagePathFor(userId, clock.image), VoiceRoute.AudioPathFor(userId, clock.audio);
            var vp := VideoRoute.VideoPathFor(userId, promoName, clock.video);
            var s := GenerateSpec(w, req, origin, clock, Generated(imageData), Generated(audioData), run);
            && s.resp.Ok?
            && s.world.ledger == w.ledger[KeyOf(before) := VideoSaved(w, req, clock)]
            && s.world.assets == w.assets
  {
    var userId, promoName, prompt := req.userId.value, req.promoName.value, req.prompt.value;
    var s1 := ImageStage(w, Touched(w, req, clock), userId, clock.image, Generated(imageData));
    var s2 := AudioStage(s1.world, s1.end.ad, userId, clock.audio, Generated(audioData));
    var s3 := VideoStage(s2.world, s2.end.ad, userId, promoName, prompt, s1.end.path, s2.end.path, clock.video, run);
    ImageThenAudio(w, req, clock, imageData, audioData);
    VideoStageSucceeds(s2.world, s2.end.ad, userId, promoName, prompt, s1.end.path, s2.end.path, clock.video, run);
    SaveTwice(w.ledger, AudioSaved(w, req, clock), VideoSaved(w, req, clock));
    assert GenerateSpec(w, req, origin, clock, Generated(imageData), Generated(audioData), run)
        == AfterVideo(s3, s1.end.path, s2.end.path, req, origin, clock) by {
      GenerateUnfolds(w, req, origin, clock, Generated(imageData), Generated(audioData), run);
      AfterImageUnfolds(s1, req, origin, clock, Generated(audioData), run);
      AfterAudioUnfolds(s2, s1.end.path, req, origin, clock, run);
    }
  }

  /** ... the response carries the three paths, the sync map and the
      request's user and promo, and the video file is rendered from the
      image and the audio. */
  lemma GenerateSuccessResponse(w: World, req: GenerateRequest, origin: Origin, clock: Clock,
                                imageData: Bytes, audioData: Bytes, run: SpawnRun)
    requires Accepted(req) && VideoRoute.Succeeded(run)
    ensures var userId, promoName := req.userId.value, req.promoName.value;
            var s := GenerateSpec(w, req, origin, clock, Generated(imageData), Generated(audioData), run);
            && s.resp.Ok?
            && s.resp.payload.imagePath == ImageRoute.ImagePathFor(userId, clock.image)
            && s.resp.payload.audioPath == VoiceRoute.AudioPathFor(userId, clock.audio)
            && s.resp.payload.videoPath == VideoRoute.VideoPathFor(userId, promoName, clock.video)
            && s.resp.payload.syncMap == SyncMapOf(req.prompt.value)
            && s.resp.payload.userId == userId && s.resp.payload.promoName == promoName
            && s.resp.payload.videoPath in s.world.files
            && s.world.files[s.resp.payload.videoPath] == Mp4(s.resp.payload.imagePath, s.resp.payload.audioPath)
  {
    var userId, promoName, prompt := req.userId.value, req.promoName.value, req.prompt.value;
    var s1 := ImageStage(w, Touched(w, req, clock), userId, clock.image, Generated(imageData));
    var s2 := AudioStage(s1.world, s1.end.ad, userId, clock.audio, Generated(audioData));
    var s3 := VideoStage(s2.world, s2.end.ad, userId, promoName, prompt, s1.end.path, s2.end.path, clock.video, run);
    VideoStageSucceeds(s2.world, s2.end.ad, userId, promoName, prompt, s1.end.path, s2.end.path, clock.video, run);
    ImageThenAudio(w, req, clock, imageData, audioData);
    assert s3.end == Advanced(VideoSaved(w, req, clock), VideoRoute.VideoPathFor(userId, promoName, clock.video));
    assert GenerateSpec(w, req, origin, clock, Generated(imageData), Generated(audioData), run)
        == AfterVideo(s3, s1.end.path, s2.end.path, req, origin, clock) by {
      GenerateUnfolds(w, req, origin, clock, Generated(imageData), Generated(audioData), run);
      AfterImageUnfolds(s1, req, origin, clock, Generated(audioData), run);
      AfterAudioUnfolds(s2, s1.end.path, req, origin, clock, run);
    }
  }

  /** Once the image stage succeeded, the ledger is the old one with the
      request's record replaced by `Saved`, whatever the later stages do. */
  lemma GenerateSaves(w: World, req: GenerateRequest, origin: Origin, clock: Clock,
                      imageData: Bytes, audio: StageOutcome, run: SpawnRun)
    requires Accepted(req)
    ensures GenerateSpec(w, req, origin, clock, Generated(imageData), audio, run).world.ledger
         == w.ledger[KeyOf(Before(w, req, clock)) := Saved(w, req, clock, audio, run)]
  {
    if !audio.Generated? {
      GenerateAudioFails(w, req, origin, clock, imageData, audio, run);
    } else if VideoRoute.Succeeded(run) {
      GenerateSuccess(w, req, origin, clock, imageData, audio.data, run);
    } else {
      GenerateVideoFails(w, req, origin, clock, imageData, audio.data, run);
    }
  }

  /** The saved record keeps the key and the well-formedness of the one it
      was built from, and its counters moved as the stages went. */
  lemma SavedFacts(w: World, req: GenerateRequest, clock: Clock, audio: StageOutcome, run: SpawnRun)
    requires Accepted(req)
    ensures var before, a := Before(w, req, clock), Saved(w, req, clock, audio, run);
            && KeyOf(a) == KeyOf(before)
            && (WellFormed(before) ==> WellFormed(a))
            && a.attemptCount == before.attemptCount + 1
            && a.imageAttempts == before.imageAttempts
            && a.audioAttempts == before.audioAttempts + (if audio.Generated? then 1 else 0)
            && a.videoAttempts == before.videoAttempts + (if audio.Generated? && VideoRoute.Succeeded(run) then 1 else 0)
            && a.isFinal == before.isFinal && a.finalizedAt == before.finalizedAt
            && a.imagePath == Some(ImageRoute.ImagePathFor(req.userId.value, clock.image))
            && a.audioPath == (if audio.Generated? then Some(VoiceRoute.AudioPathFor(req.userId.value, clock.audio)) else before.audioPath)
            && a.videoPath == (if audio.Generated? && VideoRoute.Succeeded(run)
                               then Some(VideoRoute.VideoPathFor(req.userId.value, req.promoName.value, clock.video))
                               else before.videoPath)
  {
  }

  /** The counters over every outcome: the request's own record is the only
      one that can change; it is persisted only once the image stage
      succeeded, and then has exactly one more total attempt, the same image
      attempts, one more audio attempt exactly when the speech bytes were
      written, and one more video attempt exactly when ffmpeg exited with 0. */
  lemma GenerateCounters(w: World, req: GenerateRequest, origin: Origin, clock: Clock,
                         image: StageOutcome, audio: StageOutcome, run: SpawnRun)
    requires Accepted(req)
    ensures var l := GenerateSpec(w, req, origin, clock, image, audio, run).world.ledger;
            var before := Before(w, req, clock);
            var k := KeyOf(before);
            && (!image.Generated? ==> l == w.ledger)
            && (image.Generated? ==>
                  && k in l && l == w.ledger[k := l[k]]
                  && l[k].attemptCount == before.attemptCount + 1
                  && l[k].imageAttempts == before.imageAttempts
                  && l[k].audioAttempts == before.audioAttempts + (if audio.Generated? then 1 else 0)
                  && l[k].videoAttempts == before.videoAttempts + (if audio.Generated? && VideoRoute.Succeeded(run) then 1 else 0)
                  && l[k].isFinal == before.isFinal)
  {
    if !image.Generated? {
      GenerateImageFails(w, req, origin, clock, image, audio, run);
    } else {
      GenerateSaves(w, req, origin, clock, image.data, audio, run);
      SavedFacts(w, req, clock, audio, run);
    }
  }

  /** The orchestrator keeps the ledger well formed: a video is recorded
      only next to the image and audio of the same run. */
  lemma GenerateKeepsLedgerWellFormed(w: World, req: GenerateRequest, origin: Origin, clock: Clock,
                                      image: StageOutcome, audio: StageOutcome, run: SpawnRun)
    requires LedgerWellFormed(w.ledger)
    ensures LedgerWellFormed(GenerateSpec(w, req, origin, clock, image, audio, run).world.ledger)
  {
    if !Accepted(req) {
      GenerateRejects(w, req, origin, clock, image, audio, run);
    } else if !image.Generated? {
      GenerateImageFails(w, req, origin, clock, image, audio, run);
    } else {
      GenerateSaves(w, req, origin, clock, image.data, audio, run);
      LoadOrCreateWellFormed(w.ledger, req.userId.value, req.promoName.value, req.prompt, req.kind, clock.created);
      SavedFacts(w, req, clock, audio, run);
      SaveKeepsLedgerWellFormed(w.ledger, Saved(w, req, clock, audio, run));
    }
  }

  /** Neither the audio cap of the voice route nor finalization stops this
      handler: a final record already at the cap gets one more audio attempt. */
  lemma GenerateBypassesCapAndFinalization(w: World, env: EnvInt, req: GenerateRequest, origin: Origin, clock: Clock,
                                           imageData: Bytes, audioData: Bytes, run: SpawnRun)
    requires Accepted(req)
    requires (req.userId.value, req.promoName.value) in w.ledger
    requires w.ledger[(req.userId.value, req.promoName.value)].isFinal
    requires w.ledger[(req.userId.value, req.promoName.value)].audioAttempts >= VoiceRoute.MaxAudio(env)
    ensures var before := w.ledger[(req.userId.value, req.promoName.value)];
            var l := GenerateSpec(w, req, origin, clock, Generated(imageData), Generated(audioData), run).world.ledger;
            && KeyOf(before) in l
            && l[KeyOf(before)].audioAttempts == before.audioAttempts + 1 > VoiceRoute.MaxAudio(env)
            && l[KeyOf(before)].isFinal
  {
    GenerateCounters(w, req, origin, clock, Generated(imageData), Generated(audioData), run);
  }
}
