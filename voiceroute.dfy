/** server/routes/voice.js: the capped voice stage and its finalize handler. */
module VoiceRoute {
  import opened Common
  import opened JsString
  import opened Http
  import opened AdAttemptModel
  import opened Persistence
  import opened Finalization

  datatype VoiceRequest = VoiceRequest(userId: Option<string>, promoName: Option<string>, prompt: Option<string>, voiceStyle: Option<string>)

  datatype VoicePayload = VoicePayload(audioUrl: string, audioPath: string, userId: string, promoName: string, voiceStyle: string)

  /** `MAX_AUDIO`: `MAX_AUDIO_PER_AD` parsed, or 3. */
  function MaxAudio(env: EnvInt): int
  {
    IntOr(env, 3)
  }

  /** `voiceStyle || 'default'`. */
  function VoiceStyleOf(voiceStyle: Option<string>): string
  {
    if Truthy(voiceStyle) then voiceStyle.value else "default"
  }

  function AudioName(now: Time): string
  {
    "audio_" + NatToString(now) + ".mp3"
  }

  /** `path.join('output', 'audio', userId, audioName)`. */
  function AudioPathFor(userId: string, now: Time): string
  {
    "output/audio/" + userId + "/" + AudioName(now)
  }

  /** POST `/`: the response and the state after it, for a text-to-speech outcome. */
  function PostVoiceSpec(w: World, maxAudioEnv: EnvInt, req: VoiceRequest, origin: Origin, now: Time, outcome: StageOutcome): Step<VoicePayload>
  {
    if !Truthy(req.userId) || !Truthy(req.promoName) || !Truthy(req.prompt) then
      Step(Error(400, "Missing required fields"), w)
    else
      var userId := req.userId.value;
      var promoName := req.promoName.value;
      var ad := LoadOrCreate(w.ledger, userId, promoName, req.prompt, Some("voice"), now);
      var cap := MaxAudio(maxAudioEnv);
      if ad.audioAttempts >= cap then
        Step(Error(429, "Audio limit of " + IntToString(cap) + " reached"), w)
      else
        var path := AudioPathFor(userId, now);
        match outcome
        case ProviderFailed(m) => Step(ErrorWith(500, "Voice generation failed", m), w)
        case WriteFailed(m) => Step(ErrorWith(500, "Voice generation failed", m), w)
        case Generated(data) =>
          var saved := ad.(audioPath := Some(path), audioAttempts := ad.audioAttempts + 1);
          var url := Url(origin, "/audio/" + userId + "/" + AudioName(now));
          Step(Ok(VoicePayload(url, path, userId, promoName, VoiceStyleOf(req.voiceStyle))),
               SaveIn(WriteIn(w, path, AudioMp3(data)), saved))
  }

  method PostVoice(store: Store, maxAudioEnv: EnvInt, req: VoiceRequest, origin: Origin, now: Time, outcome: StageOutcome)
    returns (resp: Response<VoicePayload>)
    modifies store
    ensures Step(resp, store.Snapshot()) == PostVoiceSpec(old(store.Snapshot()), maxAudioEnv, req, origin, now, outcome)
  {
    if !Truthy(req.userId) || !Truthy(req.promoName) || !Truthy(req.prompt) {
      resp := Error(400, "Missing required fields");
      return;
    }
    var userId, promoName := req.userId.value, req.promoName.value;

    var ad := store.LoadOrCreate(userId, promoName, req.prompt, Some("voice"), now);

    var cap := MaxAudio(maxAudioEnv);
    if ad.audioAttempts >= cap {
      resp := Error(429, "Audio limit of " + IntToString(cap) + " reached");
      return;
    }

    var audioName := AudioName(now);
    var audioPathDB := AudioPathFor(userId, now);

    match outcome {
      case ProviderFailed(m) =>
        resp := ErrorWith(500, "Voice generation failed", m);
        return;
      case WriteFailed(m) =>
        resp := ErrorWith(500, "Voice generation failed", m);
        return;
      case Generated(data) =>
        store.WriteFile(audioPathDB, AudioMp3(data));
    }

    ad := ad.(audioPath := Some(audioPathDB));
    ad := ad.(audioAttempts := ad.audioAttempts + 1);
    store.Save(ad);

    var audioUrl := Url(origin, "/audio/" + userId + "/" + audioName);
    resp := Ok(VoicePayload(audioUrl, audioPathDB, userId, promoName, VoiceStyleOf(req.voiceStyle)));
  }

  /** POST `/finalize`. */
  function FinalizeVoiceSpec(w: World, userId: Option<string>, promoName: Option<string>, now: Time): Step<FinalizePayload>
  {
    if !Truthy(userId) || !Truthy(promoName) then Step(Error(400, "Missing required fields"), w)
    else FinalizeStep(w, AdAttemptModel.FindOne(w.ledger, userId, promoName), now)
  }

  method FinalizeVoice(store: Store, userId: Option<string>, promoName: Option<string>, now: Time)
    returns (resp: Response<FinalizePayload>)
    modifies store
    ensures Step(resp, store.Snapshot()) == FinalizeVoiceSpec(old(store.Snapshot()), userId, promoName, now)
  {
    if !Truthy(userId) || !Truthy(promoName) {
      resp := Error(400, "Missing required fields");
      return;
    }
    var ad := store.FindOne(userId, promoName);
    resp := FinalizeFound(store, ad, now);
  }

  // ---------------------------------------------------------------------
  // Properties of the voice stage.

  /** MAX_AUDIO is 3 unless the variable parses to a non-zero integer. */
  lemma MaxAudioDefault(env: EnvInt)
    ensures !(env.Parsed? && env.n != 0) ==> MaxAudio(env) == 3
    ensures env.Parsed? && env.n != 0 ==> MaxAudio(env) == env.n
  {
  }

  /** A request without userId, promoName or prompt is a 400 that changes nothing. */
  lemma VoiceMissingFields(w: World, env: EnvInt, req: VoiceRequest, origin: Origin, now: Time, outcome: StageOutcome)
    requires !Truthy(req.userId) || !Truthy(req.promoName) || !Truthy(req.prompt)
    ensures PostVoiceSpec(w, env, req, origin, now, outcome) == Step(Error(400, "Missing required fields"), w)
  {
  }

  /** The cap is checked before the text-to-speech call: once the record has
      MAX_AUDIO audio attempts, every outcome gives the same 429 and nothing changes. */
  lemma VoiceCapReached(w: World, env: EnvInt, req: VoiceRequest, origin: Origin, now: Time, outcome: StageOutcome)
    requires Truthy(req.userId) && Truthy(req.promoName) && Truthy(req.prompt)
    requires (req.userId.value, req.promoName.value) in w.ledger
    requires w.ledger[(req.userId.value, req.promoName.value)].audioAttempts >= MaxAudio(env)
    ensures PostVoiceSpec(w, env, req, origin, now, outcome).world == w
    ensures PostVoiceSpec(w, env, req, origin, now, outcome).resp == Error(429, "Audio limit of " + IntToString(MaxAudio(env)) + " reached")
  {
  }

  /** A failed call, a non-ok response or a failed write is a 500 that
      leaves the record, its audio path and its counters as they were;
      once the request is checked and below the cap, it is 'Voice
      generation failed' carrying the error's message. */
  lemma VoiceFailureChangesNothing(w: World, env: EnvInt, req: VoiceRequest, origin: Origin, now: Time, outcome: StageOutcome)
    requires !outcome.Generated?
    ensures PostVoiceSpec(w, env, req, origin, now, outcome).world == w
    ensures PostVoiceSpec(w, env, req, origin, now, outcome).resp.Fail?
    ensures Truthy(req.userId) && Truthy(req.promoName) && Truthy(req.prompt)
            && LoadOrCreate(w.ledger, req.userId.value, req.promoName.value, req.prompt, Some("voice"), now).audioAttempts < MaxAudio(env)
            ==> PostVoiceSpec(w, env, req, origin, now, outcome).resp
                == ErrorWith(500, "Voice generation failed", outcome.message)
  {
  }

  /** Success below the cap: the record (the stored one, or a new one of
      type 'voice') gets the new audio path and exactly one more audio
      attempt, the audio file is written, and nothing else changes. */
  lemma VoiceSuccess(w: World, env: EnvInt, req: VoiceRequest, origin: Origin, now: Time, data: Bytes)
    requires Truthy(req.userId) && Truthy(req.promoName) && Truthy(req.prompt)
    requires Keyed(w.ledger)
    requires LoadOrCreate(w.ledger, req.userId.value, req.promoName.value, req.prompt, Some("voice"), now).audioAttempts < MaxAudio(env)
    ensures var key := (req.userId.value, req.promoName.value);
            var before := LoadOrCreate(w.ledger, key.0, key.1, req.prompt, Some("voice"), now);
            var s := PostVoiceSpec(w, env, req, origin, now, Generated(data));
            var path := AudioPathFor(key.0, now);
            && s.resp.Ok? && s.resp.payload.audioPath == path
            && (key !in w.ledger ==> before.kind == Some("voice") && Pristine(before))
            && s.world.ledger == w.ledger[key := before.(audioPath := Some(path), audioAttempts := before.audioAttempts + 1)]
            && s.world.files == w.files[path := AudioMp3(data)]
            && s.world.assets == w.assets
  {
  }

  /** No record ever gets more than MAX_AUDIO audio attempts from this handler. */
  lemma VoiceKeepsCap(w: World, env: EnvInt, req: VoiceRequest, origin: Origin, now: Time, outcome: StageOutcome)
    requires forall k :: k in w.ledger ==> w.ledger[k].audioAttempts <= Max(0, MaxAudio(env))
    ensures var w' := PostVoiceSpec(w, env, req, origin, now, outcome).world;
            forall k :: k in w'.ledger ==> w'.ledger[k].audioAttempts <= Max(0, MaxAudio(env))
  {
  }

  /** The handler keeps the ledger well formed. */
  lemma VoiceKeepsLedgerWellFormed(w: World, env: EnvInt, req: VoiceRequest, origin: Origin, now: Time, outcome: StageOutcome)
    requires LedgerWellFormed(w.ledger)
    ensures LedgerWellFormed(PostVoiceSpec(w, env, req, origin, now, outcome).world.ledger)
  {
  }

  /** Finalize: 400 on a missing field, otherwise the shared transition. */
  lemma FinalizeVoiceMissingFields(w: World, userId: Option<string>, promoName: Option<string>, now: Time)
    requires !Truthy(userId) || !Truthy(promoName)
    ensures FinalizeVoiceSpec(w, userId, promoName, now) == Step(Error(400, "Missing required fields"), w)
  {
  }
}
