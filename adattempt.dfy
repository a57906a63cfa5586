/** The AdAttempt record of server/models/adattempt.js and the ledger of
    such records that the routes keep, one per (userId, promoName). */
module AdAttemptModel {
  import opened Common
  import opened SyncMap

  /** The record. `kind` is the schema's `type` field; `prompt` and `kind`
      are absent in records the video service creates without them. */
  datatype AdAttempt = AdAttempt(
    userId: string,
    promoName: string,
    prompt: Option<string>,
    kind: Option<string>,
    imagePath: Option<string>,
    audioPath: Option<string>,
    videoPath: Option<string>,
    syncMap: seq<Segment>,
    isFinal: bool,
    finalizedAt: Option<Time>,
    attemptCount: nat,
    imageAttempts: nat,
    audioAttempts: nat,
    videoAttempts: nat,
    createdAt: Time)

  /** The lookup key every route uses: `{ userId, promoName }`. */
  type Key = (string, string)

  function KeyOf(a: AdAttempt): Key
  {
    (a.userId, a.promoName)
  }

  /** The state of a record that no stage has touched yet. */
  predicate Pristine(a: AdAttempt)
  {
    && a.imagePath.None? && a.audioPath.None? && a.videoPath.None?
    && a.syncMap == []
    && !a.isFinal && a.finalizedAt.None?
    && a.attemptCount == 1
    && a.imageAttempts == 0 && a.audioAttempts == 0 && a.videoAttempts == 0
  }

  /** `new AdAttempt({ userId, promoName, prompt, type })` with the schema's defaults. */
  function NewAttempt(userId: string, promoName: string, prompt: Option<string>, kind: Option<string>, now: Time): (a: AdAttempt)
    ensures KeyOf(a) == (userId, promoName) && a.prompt == prompt && a.kind == kind && a.createdAt == now
    ensures Pristine(a)
  {
    AdAttempt(userId, promoName, prompt, kind, None, None, None, [], false, None, 1, 0, 0, 0, now)
  }

  type Ledger = map<Key, AdAttempt>

  /** `AdAttempt.findOne({ userId, promoName })`. A filter field that the
      request did not supply matches no record: every stored record has both. */
  function FindOne(ledger: Ledger, userId: Option<string>, promoName: Option<string>): (r: Option<AdAttempt>)
    ensures r.Some? <==> userId.Some? && promoName.Some? && (userId.value, promoName.value) in ledger
    ensures r.Some? ==> r.value == ledger[(userId.value, promoName.value)]
  {
    if userId.Some? && promoName.Some? && (userId.value, promoName.value) in ledger
    then Some(ledger[(userId.value, promoName.value)])
    else None
  }

  /** The "load or create" opening of every generation route. */
  function LoadOrCreate(ledger: Ledger, userId: string, promoName: string, prompt: Option<string>, kind: Option<string>, now: Time): (a: AdAttempt)
    ensures (userId, promoName) in ledger ==> a == ledger[(userId, promoName)]
    ensures (userId, promoName) !in ledger ==> KeyOf(a) == (userId, promoName) && Pristine(a) && a.kind == kind && a.prompt == prompt
  {
    if (userId, promoName) in ledger then ledger[(userId, promoName)]
    else NewAttempt(userId, promoName, prompt, kind, now)
  }

  /** What holds of every record the routes ever store: a record is final
      exactly when it has a finalization time, its total count is at least
      one, and a video is only recorded next to an image and an audio. */
  predicate WellFormed(a: AdAttempt)
  {
    && (a.isFinal <==> a.finalizedAt.Some?)
    && a.attemptCount >= 1
    && (a.videoPath.Some? ==> a.imagePath.Some? && a.audioPath.Some?)
  }

  /** Every record is stored under its own (userId, promoName). */
  predicate Keyed(ledger: Ledger)
  {
    forall k :: k in ledger ==> KeyOf(ledger[k]) == k
  }

  predicate LedgerWellFormed(ledger: Ledger)
  {
    Keyed(ledger) && forall k :: k in ledger ==> WellFormed(ledger[k])
  }

  /** The record a route loads or creates from a well-formed ledger is well
      formed and carries the key it was looked up by. */
  lemma LoadOrCreateWellFormed(ledger: Ledger, userId: string, promoName: string, prompt: Option<string>, kind: Option<string>, now: Time)
    requires LedgerWellFormed(ledger)
    ensures var a := LoadOrCreate(ledger, userId, promoName, prompt, kind, now);
            WellFormed(a) && KeyOf(a) == (userId, promoName)
  {
  }

  /** Saving a well-formed record keeps the ledger well formed. */
  lemma SaveKeepsLedgerWellFormed(ledger: Ledger, a: AdAttempt)
    requires LedgerWellFormed(ledger) && WellFormed(a)
    ensures LedgerWellFormed(ledger[KeyOf(a) := a])
  {
  }

  /** The outcome of the finalize transition shared by the three finalize routes. */
  datatype FinalizeResult = NotFound | AlreadyFinal | Finalized(record: AdAttempt)

  /** InProgress -> Final: a missing record is not found, a final one is a
      conflict, any other becomes final at `now` with nothing else changed. */
  function Finalize(found: Option<AdAttempt>, now: Time): (r: FinalizeResult)
    ensures r == NotFound <==> found.None?
    ensures r == AlreadyFinal <==> found.Some? && found.value.isFinal
    ensures r.Finalized? ==> r.record == found.value.(isFinal := true, finalizedAt := Some(now))
  {
    match found
    case None => NotFound
    case Some(a) => if a.isFinal then AlreadyFinal else Finalized(a.(isFinal := true, finalizedAt := Some(now)))
  }

  /** Finalizing twice is a conflict the second time. */
  lemma FinalizeTwiceConflicts(a: AdAttempt, now: Time, later: Time)
    requires !a.isFinal
    ensures Finalize(Some(a), now).Finalized?
    ensures Finalize(Some(Finalize(Some(a), now).record), later) == AlreadyFinal
  {
  }

  lemma FinalizeKeepsWellFormed(a: AdAttempt, now: Time)
    requires WellFormed(a)
    ensures Finalize(Some(a), now).Finalized? ==> WellFormed(Finalize(Some(a), now).record)
  {
  }
}
