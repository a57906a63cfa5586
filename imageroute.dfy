/** server/routes/image.js: the capped image stage and its finalize handler. */
module ImageRoute {
  import opened Common
  import opened JsString
  import opened Http
  import opened AdAttemptModel
  import opened Persistence
  import opened Finalization

  datatype ImageRequest = ImageRequest(userId: Option<string>, promoName: Option<string>, prompt: Option<string>, imageStyle: Option<string>)

  datatype ImagePayload = ImagePayload(imageUrl: string, imagePath: string, userId: string, promoName: string, style: string)

  /** `MAX_IMAGE`: `MAX_IMAGE_PER_AD` parsed, or 3. */
  function MaxImage(env: EnvInt): int
  {
    IntOr(env, 3)
  }

  /** `imageStyle || 'default'`. */
  function StyleOf(imageStyle: Option<string>): string
  {
    if Truthy(imageStyle) then imageStyle.value else "default"
  }

  function ImageName(now: Time): string
  {
    "image_" + NatToString(now) + ".png"
  }

  /** `path.join('output', 'images', userId, imageName)`. */
  function ImagePathFor(userId: string, now: Time): string
  {
    "output/images/" + userId + "/" + ImageName(now)
  }

  /** POST `/`: the response and the state after it, for a provider outcome. */
  function PostImageSpec(w: World, maxImageEnv: EnvInt, req: ImageRequest, origin: Origin, now: Time, outcome: StageOutcome): Step<ImagePayload>
  {
    if !Truthy(req.userId) || !Truthy(req.promoName) || !Truthy(req.prompt) then
      Step(Error(400, "Missing required fields"), w)
    else
      var userId := req.userId.value;
      var promoName := req.promoName.value;
      var ad := LoadOrCreate(w.ledger, userId, promoName, req.prompt, Some("image"), now);
      var cap := MaxImage(maxImageEnv);
      if ad.imageAttempts >= cap then
        Step(Error(429, "Image generation limit of " + IntToString(cap) + " reached for this promo"), w)
      else
        var path := ImagePathFor(userId, now);
        match outcome
        case ProviderFailed(m) => Step(ErrorWith(500, "Image generation failed", m), w)
        case WriteFailed(m) => Step(ErrorWith(500, "Failed to save image", m), w)
        case Generated(data) =>
          var saved := ad.(imagePath := Some(path), imageAttempts := ad.imageAttempts + 1);
          var url := Url(origin, "/images/" + userId + "/" + ImageName(now));
          Step(Ok(ImagePayload(url, path, userId, promoName, StyleOf(req.imageStyle))),
               SaveIn(WriteIn(w, path, ImagePng(data)), saved))
  }

  method PostImage(store: Store, maxImageEnv: EnvInt, req: ImageRequest, origin: Origin, now: Time, outcome: StageOutcome)
    returns (resp: Response<ImagePayload>)
    modifies store
    ensures Step(resp, store.Snapshot()) == PostImageSpec(old(store.Snapshot()), maxImageEnv, req, origin, now, outcome)
  {
    if !Truthy(req.userId) || !Truthy(req.promoName) || !Truthy(req.prompt) {
      resp := Error(400, "Missing required fields");
      return;
    }
    var userId, promoName := req.userId.value, req.promoName.value;

    var ad := store.LoadOrCreate(userId, promoName, req.prompt, Some("image"), now);

    var cap := MaxImage(maxImageEnv);
    if ad.imageAttempts >= cap {
      resp := Error(429, "Image generation limit of " + IntToString(cap) + " reached for this promo");
      return;
    }

    var imageName := ImageName(now);
    var imagePathForDB := ImagePathFor(userId, now);

    match outcome {
      case ProviderFailed(m) =>
        resp := ErrorWith(500, "Image generation failed", m);
        return;
      case WriteFailed(m) =>
        resp := ErrorWith(500, "Failed to save image", m);
        return;
      case Generated(data) =>
        store.WriteFile(imagePathForDB, ImagePng(data));
    }

    ad := ad.(imagePath := Some(imagePathForDB));
    ad := ad.(imageAttempts := ad.imageAttempts + 1);
    store.Save(ad);

    var imageUrl := Url(origin, "/images/" + userId + "/" + imageName);
    resp := Ok(ImagePayload(imageUrl, imagePathForDB, userId, promoName, StyleOf(req.imageStyle)));
  }

  /** POST `/finalize`. */
  function FinalizeImageSpec(w: World, userId: Option<string>, promoName: Option<string>, now: Time): Step<FinalizePayload>
  {
    if !Truthy(userId) || !Truthy(promoName) then Step(Error(400, "Missing required fields"), w)
    else FinalizeStep(w, AdAttemptModel.FindOne(w.ledger, userId, promoName), now)
  }

  method FinalizeImage(store: Store, userId: Option<string>, promoName: Option<string>, now: Time)
    returns (resp: Response<FinalizePayload>)
    modifies store
    ensures Step(resp, store.Snapshot()) == FinalizeImageSpec(old(store.Snapshot()), userId, promoName, now)
  {
    if !Truthy(userId) || !Truthy(promoName) {
      resp := Error(400, "Missing required fields");
      return;
    }
    var ad := store.FindOne(userId, promoName);
    resp := FinalizeFound(store, ad, now);
  }

  // ---------------------------------------------------------------------
  // Properties of the image stage.

  /** MAX_IMAGE is 3 unless the variable parses to a non-zero integer. */
  lemma MaxImageDefault(env: EnvInt)
    ensures !(env.Parsed? && env.n != 0) ==> MaxImage(env) == 3
    ensures env.Parsed? && env.n != 0 ==> MaxImage(env) == env.n
  {
  }

  /** A request without userId, promoName or prompt is a 400 that changes nothing. */
  lemma ImageMissingFields(w: World, env: EnvInt, req: ImageRequest, origin: Origin, now: Time, outcome: StageOutcome)
    requires !Truthy(req.userId) || !Truthy(req.promoName) || !Truthy(req.prompt)
    ensures PostImageSpec(w, env, req, origin, now, outcome) == Step(Error(400, "Missing required fields"), w)
  {
  }

  /** The cap is checked before the provider is called: once the record has
      MAX_IMAGE image attempts, every outcome gives the same 429 and nothing changes. */
  lemma ImageCapReached(w: World, env: EnvInt, req: ImageRequest, origin: Origin, now: Time, outcome: StageOutcome)
    requires Truthy(req.userId) && Truthy(req.promoName) && Truthy(req.prompt)
    requires (req.userId.value, req.promoName.value) in w.ledger
    requires w.ledger[(req.userId.value, req.promoName.value)].imageAttempts >= MaxImage(env)
    ensures PostImageSpec(w, env, req, origin, now, outcome).world == w
    ensures PostImageSpec(w, env, req, origin, now, outcome).resp
         == Error(429, "Image generation limit of " + IntToString(MaxImage(env)) + " reached for this promo")
  {
  }

  /** A provider or write failure is a 500 that leaves the record, its
      image path and its counters, and every file as they were; once the
      request is checked and below the cap, it is 'Image generation failed'
      or 'Failed to save image' carrying the error's message. */
  lemma ImageFailureChangesNothing(w: World, env: EnvInt, req: ImageRequest, origin: Origin, now: Time, outcome: StageOutcome)
    requires !outcome.Generated?
    ensures PostImageSpec(w, env, req, origin, now, outcome).world == w
    ensures PostImageSpec(w, env, req, origin, now, outcome).resp.Fail?
    ensures Truthy(req.userId) && Truthy(req.promoName) && Truthy(req.prompt)
            && LoadOrCreate(w.ledger, req.userId.value, req.promoName.value, req.prompt, Some("image"), now).imageAttempts < MaxImage(env)
            ==> PostImageSpec(w, env, req, origin, now, outcome).resp
                == ErrorWith(500, if outcome.ProviderFailed? then "Image generation failed" else "Failed to save image", outcome.message)
  {
  }

  /** Success below the cap: the record (the stored one, or a new one of
      type 'image') gets the new image path and exactly one more image
      attempt, the image file is written, and nothing else changes. */
  lemma ImageSuccess(w: World, env: EnvInt, req: ImageRequest, origin: Origin, now: Time, data: Bytes)
    requires Truthy(req.userId) && Truthy(req.promoName) && Truthy(req.prompt)
    requires Keyed(w.ledger)
    requires LoadOrCreate(w.ledger, req.userId.value, req.promoName.value, req.prompt, Some("image"), now).imageAttempts < MaxImage(env)
    ensures var key := (req.userId.value, req.promoName.value);
            var before := LoadOrCreate(w.ledger, key.0, key.1, req.prompt, Some("image"), now);
            var s := PostImageSpec(w, env, req, origin, now, Generated(data));
            var path := ImagePathFor(key.0, now);
            && s.resp.Ok? && s.resp.payload.imagePath == path
            && s.resp.payload.style == StyleOf(req.imageStyle)
            && (key !in w.ledger ==> before.kind == Some("image") && Pristine(before))
            && s.world.ledger == w.ledger[key := before.(imagePath := Some(path), imageAttempts := before.imageAttempts + 1)]
            && s.world.files == w.files[path := ImagePng(data)]
            && s.world.assets == w.assets
  {
  }

  /** The handler ignores `isFinal`: a final record below the cap still gets a new image. */
  lemma ImageIgnoresFinalization(w: World, env: EnvInt, req: ImageRequest, origin: Origin, now: Time, data: Bytes)
    requires Truthy(req.userId) && Truthy(req.promoName) && Truthy(req.prompt)
    requires Keyed(w.ledger) && (req.userId.value, req.promoName.value) in w.ledger
    requires w.ledger[(req.userId.value, req.promoName.value)].isFinal
    requires w.ledger[(req.userId.value, req.promoName.value)].imageAttempts < MaxImage(env)
    ensures PostImageSpec(w, env, req, origin, now, Generated(data)).resp.Ok?
    ensures PostImageSpec(w, env, req, origin, now, Generated(data)).world.ledger[(req.userId.value, req.promoName.value)].imageAttempts
         == w.ledger[(req.userId.value, req.promoName.value)].imageAttempts + 1
  {
  }

  /** No record ever gets more than MAX_IMAGE image attempts from this handler. */
  lemma ImageKeepsCap(w: World, env: EnvInt, req: ImageRequest, origin: Origin, now: Time, outcome: StageOutcome)
    requires forall k :: k in w.ledger ==> w.ledger[k].imageAttempts <= Max(0, MaxImage(env))
    ensures var w' := PostImageSpec(w, env, req, origin, now, outcome).world;
            forall k :: k in w'.ledger ==> w'.ledger[k].imageAttempts <= Max(0, MaxImage(env))
  {
  }

  /** The handler keeps the ledger well formed. */
  lemma ImageKeepsLedgerWellFormed(w: World, env: EnvInt, req: ImageRequest, origin: Origin, now: Time, outcome: StageOutcome)
    requires LedgerWellFormed(w.ledger)
    ensures LedgerWellFormed(PostImageSpec(w, env, req, origin, now, outcome).world.ledger)
  {
  }

  /** Finalize: 400 on a missing field, otherwise the shared transition. */
  lemma FinalizeImageMissingFields(w: World, userId: Option<string>, promoName: Option<string>, now: Time)
    requires !Truthy(userId) || !Truthy(promoName)
    ensures FinalizeImageSpec(w, userId, promoName, now) == Step(Error(400, "Missing required fields"), w)
  {
  }
}
