/** The finalize handlers of server/routes/image.js, server/routes/voice.js
    and server/routes/video.js share one transition on the ledger; this
    module holds it, and each route module adds its own field check. */
module Finalization {
  import opened Common
  import opened Http
  import opened AdAttemptModel
  import opened Persistence

  /** `{ isFinal: true, finalizedAt }` of the 200 response. */
  datatype FinalizePayload = FinalizePayload(isFinal: bool, finalizedAt: Time)

  /** 404 for no record, 409 for a final one, otherwise the record is saved final at `now`. */
  function FinalizeStep(w: World, found: Option<AdAttempt>, now: Time): Step<FinalizePayload>
  {
    match Finalize(found, now)
    case NotFound => Step(Error(404, "Ad not found"), w)
    case AlreadyFinal => Step(Conflict(), w)
    case Finalized(a) => Step(Ok(FinalizePayload(true, now)), SaveIn(w, a))
  }

  /** What follows the lookup in each finalize handler. */
  method FinalizeFound(store: Store, found: Option<AdAttempt>, now: Time) returns (resp: Response<FinalizePayload>)
    modifies store
    ensures Step(resp, store.Snapshot()) == FinalizeStep(old(store.Snapshot()), found, now)
  {
    if found.None? {
      resp := Error(404, "Ad not found");
      return;
    }
    var ad := found.value;
    if ad.isFinal {
      resp := Conflict();
      return;
    }
    ad := ad.(isFinal := true);
    ad := ad.(finalizedAt := Some(now));
    store.Save(ad);
    resp := Ok(FinalizePayload(true, ad.finalizedAt.value));
  }

  /** The transition on a record looked up by its key: a missing record
      is a 404 and a final one a 409, both changing nothing; any other is
      stored again, final at `now`, with every other field and every other
      record, file and asset unchanged. */
  lemma FinalizeStepOutcomes(w: World, userId: Option<string>, promoName: Option<string>, now: Time)
    requires Keyed(w.ledger)
    ensures var found := AdAttemptModel.FindOne(w.ledger, userId, promoName);
            var s := FinalizeStep(w, found, now);
            && (found.None? ==> s.resp == Error(404, "Ad not found") && s.world == w)
            && (found.Some? && found.value.isFinal ==> s.resp == Conflict() && s.world == w)
            && (found.Some? && !found.value.isFinal ==>
                  && s.resp == Ok(FinalizePayload(true, now))
                  && s.world.files == w.files && s.world.assets == w.assets
                  && s.world.ledger == w.ledger[(userId.value, promoName.value) := found.value.(isFinal := true, finalizedAt := Some(now))])
  {
  }

  /** A second finalize of the same record is a 409 that changes nothing. */
  lemma FinalizeTwiceConflicts(w: World, userId: Option<string>, promoName: Option<string>, now: Time, later: Time)
    requires Keyed(w.ledger)
    requires AdAttemptModel.FindOne(w.ledger, userId, promoName).Some?
    ensures var w' := FinalizeStep(w, AdAttemptModel.FindOne(w.ledger, userId, promoName), now).world;
            var again := FinalizeStep(w', AdAttemptModel.FindOne(w'.ledger, userId, promoName), later);
            again.resp == Conflict() && again.world == w'
  {
  }

  /** Finalization keeps a well-formed ledger well formed. */
  lemma FinalizeStepKeepsLedgerWellFormed(w: World, userId: Option<string>, promoName: Option<string>, now: Time)
    requires LedgerWellFormed(w.ledger)
    ensures LedgerWellFormed(FinalizeStep(w, AdAttemptModel.FindOne(w.ledger, userId, promoName), now).world.ledger)
  {
  }
}
