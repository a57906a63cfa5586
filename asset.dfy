/** The Asset record of server/models/asset.js and the version lookup the
    video service makes over the stored assets. */
module AssetModel {
  import opened Common

  /** `kind` is the schema's `type` field. */
  datatype Asset = Asset(
    kind: string,
    prompt: string,
    filePath: string,
    language: string,
    duration: Option<string>,
    userId: string,
    promoName: string,
    version: nat,
    createdAt: Time)

  /** The filter `{ userId, promoName, type: 'video' }`. */
  predicate IsVideoOf(a: Asset, userId: string, promoName: string)
  {
    a.userId == userId && a.promoName == promoName && a.kind == "video"
  }

  /** The version of `findOne(filter).sort({ version: -1 })`: the largest
      version among the matching assets, or none when nothing matches. */
  function LatestVersion(assets: seq<Asset>, userId: string, promoName: string): (r: Option<nat>)
    ensures r.None? <==> forall i :: 0 <= i < |assets| ==> !IsVideoOf(assets[i], userId, promoName)
    ensures r.Some? ==> exists i :: 0 <= i < |assets| && IsVideoOf(assets[i], userId, promoName) && assets[i].version == r.value
    ensures r.Some? ==> forall i :: 0 <= i < |assets| && IsVideoOf(assets[i], userId, promoName) ==> assets[i].version <= r.value
  {
    if assets == [] then None
    else
      var rest := LatestVersion(assets[..|assets| - 1], userId, promoName);
      var last := assets[|assets| - 1];
      if !IsVideoOf(last, userId, promoName) then rest
      else if rest.Some? && last.version <= rest.value then rest
      else Some(last.version)
  }

  /** `latestAsset ? latestAsset.version + 1 : 1`. */
  function NextVersion(assets: seq<Asset>, userId: string, promoName: string): nat
  {
    match LatestVersion(assets, userId, promoName)
    case None => 1
    case Some(v) => v + 1
  }

  /** The next version is above every stored video version of the ad, and
      it is 1 exactly when the ad has none, else one more than an existing one. */
  lemma NextVersionIsFresh(assets: seq<Asset>, userId: string, promoName: string)
    ensures forall i :: 0 <= i < |assets| && IsVideoOf(assets[i], userId, promoName) ==> assets[i].version < NextVersion(assets, userId, promoName)
    ensures NextVersion(assets, userId, promoName) == 1 <==> forall i :: 0 <= i < |assets| && IsVideoOf(assets[i], userId, promoName) ==> assets[i].version == 0
    ensures NextVersion(assets, userId, promoName) > 1 ==> exists i :: 0 <= i < |assets| && IsVideoOf(assets[i], userId, promoName) && assets[i].version + 1 == NextVersion(assets, userId, promoName)
  {
    var r := LatestVersion(assets, userId, promoName);
    if r.Some? {
      var i :| 0 <= i < |assets| && IsVideoOf(assets[i], userId, promoName) && assets[i].version == r.value;
    }
  }

  /** Appending an asset of another ad leaves the next version unchanged. */
  lemma {:induction false} NextVersionIgnoresOtherAds(assets: seq<Asset>, a: Asset, userId: string, promoName: string)
    requires !IsVideoOf(a, userId, promoName)
    ensures NextVersion(assets + [a], userId, promoName) == NextVersion(assets, userId, promoName)
  {
    assert (assets + [a])[..|assets + [a]| - 1] == assets;
  }

  /** Storing an asset at the next version moves the next version up by one. */
  lemma NextVersionAfterStore(assets: seq<Asset>, a: Asset, userId: string, promoName: string)
    requires IsVideoOf(a, userId, promoName) && a.version == NextVersion(assets, userId, promoName)
    ensures NextVersion(assets + [a], userId, promoName) == a.version + 1
  {
    assert (assets + [a])[..|assets + [a]| - 1] == assets;
  }
}
