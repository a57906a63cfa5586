/** The state the handlers share: the AdAttempt collection, the files under
    the server's `output` directory (keyed by their path relative to the
    server directory) and the Asset collection. */
module Persistence {
  import opened Common
  import opened SyncMap
  import opened AdAttemptModel
  import opened AssetModel
  import opened Http
  import opened AdLayout

  /** What a file holds: generated image or audio bytes, a JSON sync map,
      an MP4 that ffmpeg made from an image and an audio input, the
      partial output of a failed ffmpeg run, or a branded ad rendered on a
      canvas (its size, the background and logo draw boxes, the text lines
      and their baselines, whether the agent photo and a tone overlay were
      drawn). */
  datatype File =
    | ImagePng(bytes: Bytes)
    | AudioMp3(bytes: Bytes)
    | SyncMapJson(segments: seq<Segment>)
    | Mp4(image: string, audio: string)
    | PartialMp4
    | BrandedPng(canvas: Size, background: Box, logo: Box, lines: seq<string>, baselines: seq<real>,
                 photo: bool, tone: Option<string>)

  datatype World = World(ledger: Ledger, files: map<string, File>, assets: seq<Asset>)

  /** A handler's response together with the state it leaves behind. */
  datatype Step<P> = Step(resp: Response<P>, world: World)

  /** `doc.save()` / `AdAttempt.create(doc)`: the record replaces the one stored under its key. */
  function SaveIn(w: World, a: AdAttempt): World
  {
    w.(ledger := w.ledger[KeyOf(a) := a])
  }

  /** `fs.writeFileSync(path, data)`. */
  function WriteIn(w: World, path: string, f: File): World
  {
    w.(files := w.files[path := f])
  }

  /** `if (fs.existsSync(path)) fs.unlinkSync(path)`. */
  function UnlinkIn(w: World, path: string): World
  {
    w.(files := w.files - {path})
  }

  /** `fs.renameSync(from, to)`. */
  function RenameIn(w: World, from: string, to: string): World
    requires from in w.files
  {
    w.(files := (w.files - {from})[to := w.files[from]])
  }

  /** `Asset.create(entry)`. */
  function AddAsset(w: World, a: Asset): World
  {
    w.(assets := w.assets + [a])
  }

  /** The database and the file system as one mutable object; each method
      is one call the handlers make on them. */
  class Store {
    var ledger: Ledger
    var files: map<string, File>
    var assets: seq<Asset>

    constructor ()
      ensures ledger == map[] && files == map[] && assets == []
    {
      ledger := map[];
      files := map[];
      assets := [];
    }

    /** The state as a value, for the specifications. */
    function Snapshot(): World
      reads this
    {
      World(ledger, files, assets)
    }

    /** `AdAttempt.findOne({ userId, promoName })`. */
    method FindOne(userId: Option<string>, promoName: Option<string>) returns (r: Option<AdAttempt>)
      ensures r == AdAttemptModel.FindOne(ledger, userId, promoName)
    {
      if userId.Some? && promoName.Some? && (userId.value, promoName.value) in ledger {
        r := Some(ledger[(userId.value, promoName.value)]);
      } else {
        r := None;
      }
    }

    /** `findOne`, then `new AdAttempt(...)` when nothing was found; nothing is stored yet. */
    method LoadOrCreate(userId: string, promoName: string, prompt: Option<string>, kind: Option<string>, now: Time)
      returns (ad: AdAttempt)
      ensures ad == AdAttemptModel.LoadOrCreate(ledger, userId, promoName, prompt, kind, now)
    {
      var found := FindOne(Some(userId), Some(promoName));
      if found.None? {
        ad := NewAttempt(userId, promoName, prompt, kind, now);
      } else {
        ad := found.value;
      }
    }

    method Save(a: AdAttempt)
      modifies this
      ensures Snapshot() == SaveIn(old(Snapshot()), a)
    {
      ledger := ledger[KeyOf(a) := a];
    }

    method WriteFile(path: string, f: File)
      modifies this
      ensures Snapshot() == WriteIn(old(Snapshot()), path, f)
    {
      files := files[path := f];
    }

    method Unlink(path: string)
      modifies this
      ensures Snapshot() == UnlinkIn(old(Snapshot()), path)
    {
      if path in files {
        files := files - {path};
      }
    }

    method Rename(from: string, to: string)
      requires from in files
      modifies this
      ensures Snapshot() == RenameIn(old(Snapshot()), from, to)
    {
      var f := files[from];
      files := (files - {from})[to := f];
    }

    method CreateAsset(a: Asset)
      modifies this
      ensures Snapshot() == AddAsset(old(Snapshot()), a)
    {
      assets := assets + [a];
    }

    /** The version after the latest stored video of the ad, by a scan of the collection. */
    method NextVideoVersion(userId: string, promoName: string) returns (v: nat)
      ensures v == NextVersion(assets, userId, promoName)
    {
      var latest: Option<nat> := None;
      var i := 0;
      while i < |assets|
        invariant 0 <= i <= |assets|
        invariant latest == LatestVersion(assets[..i], userId, promoName)
      {
        assert assets[..i + 1][..i] == assets[..i];
        var a := assets[i];
        if IsVideoOf(a, userId, promoName) && (latest.None? || latest.value < a.version) {
          latest := Some(a.version);
        }
        i := i + 1;
      }
      assert assets[..i] == assets;
      v := if latest.None? then 1 else latest.value + 1;
    }
  }
}
