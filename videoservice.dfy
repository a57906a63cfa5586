/** `generateVideo` of server/services/videoService.js: the one generation
    path that enforces finalization and the per-ad attempt limit. It counts
    the attempt, runs ffmpeg on an image and an audio file into a temporary
    file, and on success renames that file to a versioned name and records
    it as a video Asset. */
module VideoService {
  import opened Common
  import opened JsString
  import opened Http
  import opened AdAttemptModel
  import opened AssetModel
  import opened Persistence
  import opened UserUtils
  import opened AdUtils

  /** The body fields the service reads. */
  datatype ServiceRequest = ServiceRequest(
    imagePath: Option<string>, audioPath: Option<string>, prompt: Option<string>,
    promoName: Option<string>, userId: Option<string>)

  /** The clock readings of one call: `Date.now()` for the record and the
      temporary file name, and, once ffmpeg is done, the asset's `new Date()`
      and its `toISOString()` text. */
  datatype ServiceClock = ServiceClock(now: Time, finished: Time, iso: string)

  datatype ServicePayload = ServicePayload(
    videoPath: string, prompt: string, version: nat, attemptCount: nat, attemptsRemaining: int)

  /** The message of the TypeError `normalizeUserId(undefined)` throws. */
  const UndefinedUserIdMessage := "Cannot read properties of undefined (reading 'trim')"

  /** `path.join(__dirname, '../output', normalizedUserId)`, relative to the server directory. */
  function UserDir(userId: string): string
  {
    "output/" + userId
  }

  function TempPath(userId: string, now: Time): string
  {
    UserDir(userId) + "/temp_" + NatToString(now) + ".mp4"
  }

  /** `toISOString().replace(/[:.]/g, '-')`. */
  function Stamp(iso: string): (r: string)
    ensures |r| == |iso|
    ensures forall i :: 0 <= i < |r| ==> r[i] != ':' && r[i] != '.'
    ensures forall i :: 0 <= i < |r| ==> iso[i] != ':' && iso[i] != '.' ==> r[i] == iso[i]
    ensures forall i :: 0 <= i < |r| ==> iso[i] == ':' || iso[i] == '.' ==> r[i] == '-'
  {
    if iso == [] then []
    else [if iso[0] == ':' || iso[0] == '.' then '-' else iso[0]] + Stamp(iso[1..])
  }

  /** `promoName.replace(/\s+/g, '_').toLowerCase()`. */
  function SafeName(promoName: string): (r: string)
    ensures NoSpace(r) && NoUpper(r)
    ensures Visible(r) == Lower(Visible(promoName))
  {
    var replaced := ReplaceSpaceRuns(promoName, "_");
    ReplaceHasNoSpace(promoName, "_", false);
    forall i | 0 <= i < |replaced| ensures !IsSpace(LowerChar(replaced[i])) {
      LowerKeepsSpace(replaced[i]);
    }
    VisibleOfLower(replaced);
    VisibleOfReplace(promoName, false);
    Lower(replaced)
  }

  /** A whitespace run inside the promotion name, or at either end of it,
      becomes exactly one `_`; the pieces around it are made safe on their own. */
  lemma SafeNameJoinsWords(a: string, w: string, b: string)
    requires a == [] || !IsSpace(a[|a| - 1])
    requires w != [] && AllSpace(w)
    requires b == [] || !IsSpace(b[0])
    ensures SafeName(a + w + b) == SafeName(a) + "_" + SafeName(b)
  {
    var ra, rb := ReplaceSpaceRuns(a, "_"), ReplaceSpaceRuns(b, "_");
    ReplaceOneRun(a, w, b, "_", false);
    LowerAppend(ra + "_", rb);
    LowerAppend(ra, "_");
  }

  function FinalPath(userId: string, promoName: string, version: nat, iso: string): string
  {
    UserDir(userId) + "/" + SafeName(promoName) + "_v" + NatToString(version) + "_" + Stamp(iso) + ".mp4"
  }

  // ---------------------------------------------------------------------
  // The specification, one phase at a time: the request and record gates,
  // then the counted attempt, then the ffmpeg run.

  function GenerateVideoSpec(w: World, env: EnvInt, req: ServiceRequest, clock: ServiceClock, run: ExecRun): Step<ServicePayload>
  {
    if !Truthy(req.imagePath) || !Truthy(req.audioPath) then
      Step(Error(400, "Image and audio paths are required"), w)
    else if !Truthy(req.promoName) then
      Step(Error(400, "Promo name is required"), w)
    else if req.userId.None? then
      Step(ErrorWith(500, "Video generation failed", UndefinedUserIdMessage), w)
    else
      GatedSpec(w, env, req, NormalizeUserId(req.userId.value), clock, run)
  }

  /** The finalization gate, then the attempt-limit gate, then the count. */
  function GatedSpec(w: World, env: EnvInt, req: ServiceRequest, userId: string, clock: ServiceClock, run: ExecRun): Step<ServicePayload>
    requires Truthy(req.imagePath) && Truthy(req.audioPath) && Truthy(req.promoName)
  {
    var doc := FindOne(w.ledger, Some(userId), req.promoName);
    if doc.Some? && doc.value.isFinal then
      Step(Refusal(403, "Ad already finalized.", "You have finalized this ad. Start a new one to continue."), w)
    else if !CanRetryAd(doc, MaxAttemptsPerAd(env)) then
      Step(Refusal(403, "Max attempts reached for this ad.",
                   "You’ve used all 3 attempts for this ad. Please upgrade or start a new ad."), w)
    else
      var counted := Counted(doc, userId, req.promoName.value, req.prompt, clock.now);
      RunSpec(SaveIn(w, counted), counted, req, userId, clock, run)
  }

  /** The stored record with one more attempt, or a new one (count 1). */
  function Counted(doc: Option<AdAttempt>, userId: string, promoName: string, prompt: Option<string>, now: Time): AdAttempt
  {
    if doc.Some? then doc.value.(attemptCount := doc.value.attemptCount + 1)
    else NewAttempt(userId, promoName, prompt, None, now)
  }

  /** The ffmpeg run on the temporary file, with the attempt already saved. */
  function RunSpec(w: World, counted: AdAttempt, req: ServiceRequest, userId: string, clock: ServiceClock, run: ExecRun): Step<ServicePayload>
    requires Truthy(req.imagePath) && Truthy(req.audioPath) && Truthy(req.promoName)
  {
    var temp := TempPath(userId, clock.now);
    match run
    case ExecFailed(message, partial) =>
      var left := if partial then WriteIn(w, temp, PartialMp4) else w;
      Step(ErrorWith(500, "Video generation failed", message), UnlinkIn(left, temp))
    case ExecSucceeded =>
      var promoName := req.promoName.value;
      var w1 := WriteIn(w, temp, Mp4(req.imagePath.value, req.audioPath.value));
      var version := NextVersion(w.assets, userId, promoName);
      var final := FinalPath(userId, promoName, version, clock.iso);
      var asset := NewVideoAsset(req, userId, final, version, clock.finished);
      Step(Ok(ServicePayload(final, asset.prompt, version, counted.attemptCount, 3 - counted.attemptCount)),
           AddAsset(RenameIn(w1, temp, final), asset))
  }

  /** The `Asset.create` entry: prompt `prompt || 'N/A'`, language "en". */
  function NewVideoAsset(req: ServiceRequest, userId: string, filePath: string, version: nat, createdAt: Time): (a: Asset)
    requires Truthy(req.promoName)
    ensures IsVideoOf(a, userId, req.promoName.value)
    ensures a.prompt == (if Truthy(req.prompt) then req.prompt.value else "N/A")
  {
    Asset("video", if Truthy(req.prompt) then req.prompt.value else "N/A", filePath, "en", None,
          userId, req.promoName.value, version, createdAt)
  }

  /** The record gates in their order: a final record is refused before the
      attempt limit is looked at; a record that passes both is counted and
      saved before ffmpeg runs. */
  lemma GatedUnfolds(w: World, env: EnvInt, req: ServiceRequest, userId: string, clock: ServiceClock, run: ExecRun)
    requires Truthy(req.imagePath) && Truthy(req.audioPath) && Truthy(req.promoName)
    ensures var doc := FindOne(w.ledger, Some(userId), req.promoName);
            GatedSpec(w, env, req, userId, clock, run) ==
              if doc.Some? && doc.value.isFinal then
                Step(Refusal(403, "Ad already finalized.", "You have finalized this ad. Start a new one to continue."), w)
              else if !CanRetryAd(doc, MaxAttemptsPerAd(env)) then
                Step(Refusal(403, "Max attempts reached for this ad.",
                             "You’ve used all 3 attempts for this ad. Please upgrade or start a new ad."), w)
              else
                var counted := Counted(doc, userId, req.promoName.value, req.prompt, clock.now);
                RunSpec(SaveIn(w, counted), counted, req, userId, clock, run)
  {
  }

  // ---------------------------------------------------------------------
  // The handler, call by call on the store.

  method GenerateVideo(store: Store, env: EnvInt, req: ServiceRequest, clock: ServiceClock, run: ExecRun)
    returns (resp: Response<ServicePayload>)
    modifies store
    ensures Step(resp, store.Snapshot()) == GenerateVideoSpec(old(store.Snapshot()), env, req, clock, run)
  {
    if !Truthy(req.imagePath) || !Truthy(req.audioPath) {
      return Error(400, "Image and audio paths are required");
    }
    if !Truthy(req.promoName) {
      return Error(400, "Promo name is required");
    }
    if req.userId.None? {
      return ErrorWith(500, "Video generation failed", UndefinedUserIdMessage);
    }
    resp := Gated(store, env, req, NormalizeUserId(req.userId.value), clock, run);
  }

  /** From the record lookup on. */
  method Gated(store: Store, env: EnvInt, req: ServiceRequest, userId: string, clock: ServiceClock, run: ExecRun)
    returns (resp: Response<ServicePayload>)
    requires Truthy(req.imagePath) && Truthy(req.audioPath) && Truthy(req.promoName)
    modifies store
    ensures Step(resp, store.Snapshot()) == GatedSpec(old(store.Snapshot()), env, req, userId, clock, run)
  {
    var doc := store.FindOne(Some(userId), req.promoName);
    GatedUnfolds(store.Snapshot(), env, req, userId, clock, run);
    if doc.Some? && doc.value.isFinal {
      return Refusal(403, "Ad already finalized.", "You have finalized this ad. Start a new one to continue.");
    }
    if !CanRetryAd(doc, MaxAttemptsPerAd(env)) {
      return Refusal(403, "Max attempts reached for this ad.",
                     "You’ve used all 3 attempts for this ad. Please upgrade or start a new ad.");
    }
    var counted := CountAttempt(store, doc, userId, req.promoName.value, req.prompt, clock.now);
    resp := RunFfmpeg(store, counted, req, userId, clock, run);
  }

  /** `attemptDoc.attemptCount += 1; save()`, or `AdAttempt.create(...)`. */
  method CountAttempt(store: Store, doc: Option<AdAttempt>, userId: string, promoName: string, prompt: Option<string>, now: Time)
    returns (counted: AdAttempt)
    modifies store
    ensures counted == Counted(doc, userId, promoName, prompt, now)
    ensures store.Snapshot() == SaveIn(old(store.Snapshot()), counted)
  {
    if doc.Some? {
      counted := doc.value;
      counted := counted.(attemptCount := counted.attemptCount + 1);
    } else {
      counted := NewAttempt(userId, promoName, prompt, None, now);
    }
    store.Save(counted);
  }

  /** The exec callback. */
  method RunFfmpeg(store: Store, counted: AdAttempt, req: ServiceRequest, userId: string, clock: ServiceClock, run: ExecRun)
    returns (resp: Response<ServicePayload>)
    requires Truthy(req.imagePath) && Truthy(req.audioPath) && Truthy(req.promoName)
    modifies store
    ensures Step(resp, store.Snapshot()) == RunSpec(old(store.Snapshot()), counted, req, userId, clock, run)
  {
    var temp := TempPath(userId, clock.now);
    if run.ExecFailed? {
      if run.partialOutput {
        store.WriteFile(temp, PartialMp4);
      }
      store.Unlink(temp);
      return ErrorWith(500, "Video generation failed", run.message);
    }
    store.WriteFile(temp, Mp4(req.imagePath.value, req.audioPath.value));
    var version := store.NextVideoVersion(userId, req.promoName.value);
    var final := FinalPath(userId, req.promoName.value, version, clock.iso);
    store.Rename(temp, final);
    var asset := NewVideoAsset(req, userId, final, version, clock.finished);
    store.CreateAsset(asset);
    resp := Ok(ServicePayload(final, asset.prompt, asset.version, counted.attemptCount, 3 - counted.attemptCount));
  }

  // ---------------------------------------------------------------------
  // Properties of the service.

  /** The request carries what the service reads before the record lookup. */
  predicate Passes(req: ServiceRequest)
  {
    Truthy(req.imagePath) && Truthy(req.audioPath) && Truthy(req.promoName) && req.userId.Some?
  }

  /** The record the request is about: the normalized user and the promo. */
  function ServiceKey(req: ServiceRequest): Key
    requires Passes(req)
  {
    (NormalizeUserId(req.userId.value), req.promoName.value)
  }

  function Found(w: World, req: ServiceRequest): Option<AdAttempt>
    requires Passes(req)
  {
    FindOne(w.ledger, Some(ServiceKey(req).0), req.promoName)
  }

  /** The record gates let the request through: no record yet, or one that
      is not final and whose total count is below the limit. */
  predicate Admitted(w: World, env: EnvInt, req: ServiceRequest)
    requires Passes(req)
  {
    var doc := Found(w, req);
    !(doc.Some? && doc.value.isFinal) && CanRetryAd(doc, MaxAttemptsPerAd(env))
  }

  function CountedFor(w: World, req: ServiceRequest, clock: ServiceClock): AdAttempt
    requires Passes(req)
  {
    Counted(Found(w, req), ServiceKey(req).0, req.promoName.value, req.prompt, clock.now)
  }

  /** The request checks come first, paths before the promo name before the
      user id, and a refused request changes nothing. */
  lemma ServiceRejectsRequest(w: World, env: EnvInt, req: ServiceRequest, clock: ServiceClock, run: ExecRun)
    requires !Passes(req)
    ensures var s := GenerateVideoSpec(w, env, req, clock, run);
            && s.world == w
            && (!Truthy(req.imagePath) || !Truthy(req.audioPath) ==> s.resp == Error(400, "Image and audio paths are required"))
            && (Truthy(req.imagePath) && Truthy(req.audioPath) && !Truthy(req.promoName) ==> s.resp == Error(400, "Promo name is required"))
            && (Truthy(req.imagePath) && Truthy(req.audioPath) && Truthy(req.promoName) ==>
                  s.resp == ErrorWith(500, "Video generation failed", UndefinedUserIdMessage))
  {
  }

  /** A final record is refused with 403, whatever its counts and the limit,
      and nothing changes. */
  lemma ServiceRefusesFinal(w: World, env: EnvInt, req: ServiceRequest, clock: ServiceClock, run: ExecRun)
    requires Passes(req) && ServiceKey(req) in w.ledger && w.ledger[ServiceKey(req)].isFinal
    ensures GenerateVideoSpec(w, env, req, clock, run)
         == Step(Refusal(403, "Ad already finalized.", "You have finalized this ad. Start a new one to continue."), w)
  {
    GatedUnfolds(w, env, req, ServiceKey(req).0, clock, run);
  }

  /** A record that is not final but not below the limit is refused with 403
      and nothing changes; with a limit that is not a number every existing
      record is refused. */
  lemma ServiceRefusesAtLimit(w: World, env: EnvInt, req: ServiceRequest, clock: ServiceClock, run: ExecRun)
    requires Passes(req) && ServiceKey(req) in w.ledger && !w.ledger[ServiceKey(req)].isFinal
    requires MaxAttemptsPerAd(env).NaN? || w.ledger[ServiceKey(req)].attemptCount >= MaxAttemptsPerAd(env).n
    ensures GenerateVideoSpec(w, env, req, clock, run)
         == Step(Refusal(403, "Max attempts reached for this ad.",
                         "You’ve used all 3 attempts for this ad. Please upgrade or start a new ad."), w)
  {
    GatedUnfolds(w, env, req, ServiceKey(req).0, clock, run);
  }

  /** A request the record gates turn away is a 403 and changes nothing. */
  lemma ServiceRefusesRecord(w: World, env: EnvInt, req: ServiceRequest, clock: ServiceClock, run: ExecRun)
    requires Passes(req) && !Admitted(w, env, req)
    ensures var s := GenerateVideoSpec(w, env, req, clock, run);
            s.world == w && s.resp.Fail? && s.resp.status == 403
  {
    var key := ServiceKey(req);
    assert key in w.ledger && Found(w, req) == Some(w.ledger[key]);
    if w.ledger[key].isFinal {
      ServiceRefusesFinal(w, env, req, clock, run);
    } else {
      ServiceRefusesAtLimit(w, env, req, clock, run);
    }
  }

  /** An admitted request is counted and saved before ffmpeg runs. */
  lemma ServiceAdmittedUnfolds(w: World, env: EnvInt, req: ServiceRequest, clock: ServiceClock, run: ExecRun)
    requires Passes(req) && Admitted(w, env, req)
    ensures var c := CountedFor(w, req, clock);
            GenerateVideoSpec(w, env, req, clock, run) == RunSpec(SaveIn(w, c), c, req, ServiceKey(req).0, clock, run)
  {
    GatedUnfolds(w, env, req, ServiceKey(req).0, clock, run);
  }

  /** The counted record is the request's: the stored one with one more
      attempt, or a new one with count 1 (the ledger being keyed). */
  lemma CountedFacts(w: World, req: ServiceRequest, clock: ServiceClock)
    requires Passes(req) && Keyed(w.ledger)
    ensures var c, k := CountedFor(w, req, clock), ServiceKey(req);
            && KeyOf(c) == k
            && c.attemptCount == (if k in w.ledger then w.ledger[k].attemptCount + 1 else 1)
            && (k in w.ledger ==> c == w.ledger[k].(attemptCount := w.ledger[k].attemptCount + 1))
            && (k !in w.ledger ==> Pristine(c) && c.prompt == req.prompt && c.kind == None)
  {
  }

  /** A failed ffmpeg run: 500 with the error's message; the attempt stays
      counted, the temporary file is gone and no asset is recorded. */
  lemma RunFails(w: World, c: AdAttempt, req: ServiceRequest, userId: string, clock: ServiceClock, message: string, partial: bool)
    requires Truthy(req.imagePath) && Truthy(req.audioPath) && Truthy(req.promoName)
    ensures var s := RunSpec(w, c, req, userId, clock, ExecFailed(message, partial));
            && s.resp == ErrorWith(500, "Video generation failed", message)
            && s.world.ledger == w.ledger
            && s.world.files == w.files - {TempPath(userId, clock.now)}
            && s.world.assets == w.assets
  {
  }

  /** The temporary name and the final name never coincide: the only `_`
      of the temporary name is followed by a digit, while the final name
      has a `_` followed by `v`. */
  lemma TempIsNotFinal(userId: string, now: Time, promoName: string, version: nat, iso: string)
    ensures TempPath(userId, now) != FinalPath(userId, promoName, version, iso)
  {
    var d, sn := NatToString(now), SafeName(promoName);
    var pre := UserDir(userId) + "/";
    var t := "temp_" + d + ".mp4";
    var f := sn + "_v" + NatToString(version) + "_" + Stamp(iso) + ".mp4";
    assert TempPath(userId, now) == pre + t;
    assert FinalPath(userId, promoName, version, iso) == pre + f;
    assert t != f by {
      assert f[|sn|] == '_' && f[|sn| + 1] == 'v';
    }
    assert (pre + t)[|pre|..] == t && (pre + f)[|pre|..] == f;
  }

  /** A successful run: the MP4 is renamed to its versioned name, the
      temporary file is gone, and one video asset is recorded, with a version
      above every stored video version of the ad. */
  lemma RunSucceeds(w: World, c: AdAttempt, req: ServiceRequest, userId: string, clock: ServiceClock)
    requires Truthy(req.imagePath) && Truthy(req.audioPath) && Truthy(req.promoName)
    ensures var s := RunSpec(w, c, req, userId, clock, ExecSucceeded);
            var promoName := req.promoName.value;
            var version := NextVersion(w.assets, userId, promoName);
            var final := FinalPath(userId, promoName, version, clock.iso);
            && s.resp == Ok(ServicePayload(final, if Truthy(req.prompt) then req.prompt.value else "N/A",
                                           version, c.attemptCount, 3 - c.attemptCount))
            && s.world.ledger == w.ledger
            && s.world.files == (w.files - {TempPath(userId, clock.now)})[final := Mp4(req.imagePath.value, req.audioPath.value)]
            && TempPath(userId, clock.now) !in s.world.files
            && |s.world.assets| == |w.assets| + 1 && s.world.assets[..|w.assets|] == w.assets
            && var a := s.world.assets[|w.assets|];
               && IsVideoOf(a, userId, promoName) && a.filePath == final && a.version == version
               && forall i :: 0 <= i < |w.assets| && IsVideoOf(w.assets[i], userId, promoName) ==> w.assets[i].version < a.version
  {
    var promoName := req.promoName.value;
    var version := NextVersion(w.assets, userId, promoName);
    TempIsNotFinal(userId, clock.now, promoName, version, clock.iso);
    NextVersionIsFresh(w.assets, userId, promoName);
    var s := RunSpec(w, c, req, userId, clock, ExecSucceeded);
    assert s.world.assets == w.assets + [s.world.assets[|w.assets|]];
  }

  /** Whatever ffmpeg does, an admitted request leaves its record saved with
      the counted attempt: a failed render does not give the attempt back. */
  lemma ServiceCountsAttempt(w: World, env: EnvInt, req: ServiceRequest, clock: ServiceClock, run: ExecRun)
    requires Passes(req) && Admitted(w, env, req)
    ensures var c := CountedFor(w, req, clock);
            GenerateVideoSpec(w, env, req, clock, run).world.ledger == w.ledger[KeyOf(c) := c]
  {
    var c := CountedFor(w, req, clock);
    ServiceAdmittedUnfolds(w, env, req, clock, run);
    match run
    case ExecFailed(message, partial) => RunFails(SaveIn(w, c), c, req, ServiceKey(req).0, clock, message, partial);
    case ExecSucceeded => RunSucceeds(SaveIn(w, c), c, req, ServiceKey(req).0, clock);
  }

  /** The ledger after any request: unchanged unless the request was
      admitted, and then changed only in its counted record. */
  lemma ServiceLedger(w: World, env: EnvInt, req: ServiceRequest, clock: ServiceClock, run: ExecRun)
    ensures var l := GenerateVideoSpec(w, env, req, clock, run).world.ledger;
            if Passes(req) && Admitted(w, env, req)
            then l == w.ledger[KeyOf(CountedFor(w, req, clock)) := CountedFor(w, req, clock)]
            else l == w.ledger
  {
    if !Passes(req) {
      ServiceRejectsRequest(w, env, req, clock, run);
    } else if !Admitted(w, env, req) {
      ServiceRefusesRecord(w, env, req, clock, run);
    } else {
      ServiceCountsAttempt(w, env, req, clock, run);
    }
  }

  /** A failed render of an admitted request: 500 with the error's message,
      the temporary file removed, no asset recorded. */
  lemma ServiceRenderFails(w: World, env: EnvInt, req: ServiceRequest, clock: ServiceClock, message: string, partial: bool)
    requires Passes(req) && Admitted(w, env, req)
    ensures var s := GenerateVideoSpec(w, env, req, clock, ExecFailed(message, partial));
            && s.resp == ErrorWith(500, "Video generation failed", message)
            && s.world.files == w.files - {TempPath(ServiceKey(req).0, clock.now)}
            && s.world.assets == w.assets
  {
    var c := CountedFor(w, req, clock);
    ServiceAdmittedUnfolds(w, env, req, clock, ExecFailed(message, partial));
    RunFails(SaveIn(w, c), c, req, ServiceKey(req).0, clock, message, partial);
  }

  /** A successful render of an admitted request: the response reports the
      versioned path, the next version of the ad's videos and the record's
      count, and `attemptsRemaining` is `3 - attemptCount` whatever the
      configured limit; the asset collection grows by that one video. */
  lemma ServiceRenderSucceeds(w: World, env: EnvInt, req: ServiceRequest, clock: ServiceClock)
    requires Passes(req) && Admitted(w, env, req)
    ensures var s := GenerateVideoSpec(w, env, req, clock, ExecSucceeded);
            var userId, promoName := ServiceKey(req).0, req.promoName.value;
            var version := NextVersion(w.assets, userId, promoName);
            var c := CountedFor(w, req, clock);
            && s.resp.Ok?
            && s.resp.payload.videoPath == FinalPath(userId, promoName, version, clock.iso)
            && s.resp.payload.version == version
            && s.resp.payload.attemptCount == c.attemptCount
            && s.resp.payload.attemptsRemaining == 3 - c.attemptCount
            && s.world.assets == w.assets + [NewVideoAsset(req, userId, s.resp.payload.videoPath, version, clock.finished)]
            && s.resp.payload.videoPath in s.world.files
            && s.world.files[s.resp.payload.videoPath] == Mp4(req.imagePath.value, req.audioPath.value)
            && TempPath(userId, clock.now) !in s.world.files
  {
    var c := CountedFor(w, req, clock);
    ServiceAdmittedUnfolds(w, env, req, clock, ExecSucceeded);
    RunSucceeds(SaveIn(w, c), c, req, ServiceKey(req).0, clock);
  }

  /** With a numeric limit of at least one, the service never takes a
      record past the limit: it refuses at the limit, and a new record
      starts at one. */
  lemma ServiceStaysWithinLimit(w: World, env: EnvInt, req: ServiceRequest, clock: ServiceClock, run: ExecRun, n: int)
    requires MaxAttemptsPerAd(env) == Finite(n) && n >= 1
    requires CountsWithin(w.ledger, n)
    ensures CountsWithin(GenerateVideoSpec(w, env, req, clock, run).world.ledger, n)
  {
    ServiceLedger(w, env, req, clock, run);
    if Passes(req) && Admitted(w, env, req) {
      var c := CountedFor(w, req, clock);
      assert c.attemptCount <= n by {
        var k := ServiceKey(req);
        if k in w.ledger {
          assert w.ledger[k].attemptCount < n;
        }
      }
      SaveKeepsBound(w.ledger, c, n);
    }
  }

  /** Every record's total count is at most `n`. */
  predicate CountsWithin(l: Ledger, n: int)
  {
    forall k :: k in l ==> l[k].attemptCount <= n
  }

  lemma SaveKeepsBound(l: Ledger, a: AdAttempt, n: int)
    requires CountsWithin(l, n) && a.attemptCount <= n
    ensures CountsWithin(l[KeyOf(a) := a], n)
  {
  }

  /** Under the default limit of 3, on a well-formed ledger, a successful
      response reports between 0 and 2 attempts remaining. */
  lemma ServiceRemainingUnderDefault(w: World, req: ServiceRequest, clock: ServiceClock)
    requires Passes(req) && Admitted(w, Unset, req) && LedgerWellFormed(w.ledger)
    ensures var s := GenerateVideoSpec(w, Unset, req, clock, ExecSucceeded);
            s.resp.Ok? && 0 <= s.resp.payload.attemptsRemaining <= 2
  {
    ServiceRenderSucceeds(w, Unset, req, clock);
    CountedFacts(w, req, clock);
  }

  /** A configured limit above 3 lets the count pass 3, and then the
      response reports a negative number of attempts remaining. */
  lemma ServiceRemainingGoesNegative(w: World, req: ServiceRequest, clock: ServiceClock)
    requires Passes(req) && Keyed(w.ledger)
    requires ServiceKey(req) in w.ledger && !w.ledger[ServiceKey(req)].isFinal && w.ledger[ServiceKey(req)].attemptCount == 3
    ensures var s := GenerateVideoSpec(w, Parsed(5), req, clock, ExecSucceeded);
            s.resp.Ok? && s.resp.payload.attemptsRemaining == -1
  {
    ServiceRenderSucceeds(w, Parsed(5), req, clock);
    CountedFacts(w, req, clock);
  }

  /** The service keeps the ledger well formed. */
  lemma ServiceKeepsLedgerWellFormed(w: World, env: EnvInt, req: ServiceRequest, clock: ServiceClock, run: ExecRun)
    requires LedgerWellFormed(w.ledger)
    ensures LedgerWellFormed(GenerateVideoSpec(w, env, req, clock, run).world.ledger)
  {
    ServiceLedger(w, env, req, clock, run);
    if Passes(req) && Admitted(w, env, req) {
      var c := CountedFor(w, req, clock);
      assert WellFormed(c) by {
        var k := ServiceKey(req);
        if k in w.ledger {
          assert WellFormed(w.ledger[k]);
        }
      }
      SaveKeepsLedgerWellFormed(w.ledger, c);
    }
  }
}
