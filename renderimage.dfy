/** POST `/render-ad-image` of server/routes/renderAdImage.js: validates the
    agent's details, loads the background, the logo and (when asked for)
    the agent's photo, then renders one branded PNG per known platform
    under `output/render-ad-image` and answers with their URLs. */
module RenderAdImage {
  import opened Common
  import opened JsString
  import opened Http
  import opened AdLayout
  import opened Persistence

  /** The JSON body; `None` is a field left out, which is what the
      destructuring defaults replace. */
  datatype RenderRequest = RenderRequest(
    imageUrl: Option<string>, logoUrl: Option<string>, agentPhotoUrl: Option<string>,
    agentName: Option<string>, designation: Option<string>, licenseId: Option<string>,
    contactPhone: Option<string>, contactEmail: Option<string>,
    promoName: Option<string>, userId: Option<string>, toneOverlay: Option<string>,
    platforms: Option<seq<string>>)

  /** What `loadImage` made of downloaded bytes. */
  datatype Decoded = Undecodable(message: string) | Picture(size: Size)

  /** What `axios.get` of one URL gave: an error, or the bytes as decoded. */
  datatype Fetch = Unreachable(message: string) | Fetched(image: Decoded)

  /** The outcomes of the three downloads; `photo` is looked at only when
      the request names an agent photo. */
  datatype Fetches = Fetches(background: Fetch, logo: Fetch, photo: Fetch)

  datatype RenderPayload = RenderPayload(urls: seq<string>)

  /** What every platform's rendering shares; `stamp(i)` is `Date.now()`
      when the i-th listed platform is saved. */
  datatype Job = Job(background: Size, logo: Size, photo: bool, tone: Option<string>,
                     lines: seq<string>, userId: string, promoName: string, stamp: nat -> Time)

  /** The URLs pushed so far and the state. */
  datatype Progress = Progress(urls: seq<string>, world: World)

  const OutputDir: string := "output/render-ad-image/"
  const RenderFailed: string := "Failed to render branded ad"

  /** The seven fields checked for truthiness before anything is fetched. */
  predicate HasRequiredFields(req: RenderRequest)
  {
    && Truthy(req.imageUrl) && Truthy(req.logoUrl) && Truthy(req.agentName)
    && Truthy(req.designation) && Truthy(req.licenseId)
    && Truthy(req.contactPhone) && Truthy(req.contactEmail)
  }

  function PromoNameOf(req: RenderRequest): string
  {
    if req.promoName.Some? then req.promoName.value else "ad"
  }

  function UserIdOf(req: RenderRequest): string
  {
    if req.userId.Some? then req.userId.value else "client"
  }

  function PlatformsOf(req: RenderRequest): seq<string>
  {
    if req.platforms.Some? then req.platforms.value else ["instagram_post"]
  }

  /** The five text lines, the licence one prefixed. */
  function TextLines(req: RenderRequest): seq<string>
    requires HasRequiredFields(req)
  {
    [req.agentName.value, req.designation.value, "License: " + req.licenseId.value,
     req.contactPhone.value, req.contactEmail.value]
  }

  /** `${userId}_${promoName.replace(/\s+/g, '_')}_${PLATFORM}_${timestamp}.png`. */
  function FileName(userId: string, promoName: string, platform: string, stamp: Time): string
  {
    userId + "_" + ReplaceSpaceRuns(promoName, "_") + "_" + Upper(platform) + "_" + NatToString(stamp) + ".png"
  }

  /** The file saved and the URL returned for the i-th listed platform. */
  function PathOf(job: Job, ps: seq<string>, i: nat): string
    requires i < |ps|
  {
    OutputDir + FileName(job.userId, job.promoName, ps[i], job.stamp(i))
  }

  function UrlOf(job: Job, ps: seq<string>, i: nat): string
    requires i < |ps|
  {
    "/render-ad-image/" + FileName(job.userId, job.promoName, ps[i], job.stamp(i))
  }

  /** The canvas drawn for one platform. */
  function Draw(job: Job, canvas: Size): File
  {
    BrandedPng(canvas, Cover(job.background, canvas), LogoBox(canvas, job.logo), job.lines,
               Baselines(canvas.height, |job.lines|), job.photo, job.tone)
  }

  /** One pass of the platform loop: an unknown platform is skipped, a known
      one is saved and its URL pushed. */
  function RenderOne(p: Progress, job: Job, ps: seq<string>, i: nat): Progress
    requires i < |ps|
  {
    match Format(ps[i])
    case None => p
    case Some(canvas) => Progress(p.urls + [UrlOf(job, ps, i)], WriteIn(p.world, PathOf(job, ps, i), Draw(job, canvas)))
  }

  /** The loop after its first `n` passes. */
  function RenderPrefix(w: World, job: Job, ps: seq<string>, n: nat): Progress
    requires n <= |ps|
  {
    if n == 0 then Progress([], w) else RenderOne(RenderPrefix(w, job, ps, n - 1), job, ps, n - 1)
  }

  /** The positions, among the first `n`, of the platforms FORMAT_MAP knows. */
  function Known(ps: seq<string>, n: nat): (r: seq<nat>)
    requires n <= |ps|
    ensures forall k :: 0 <= k < |r| ==> r[k] < n && Format(ps[r[k]]).Some?
    ensures forall k, l :: 0 <= k < l < |r| ==> r[k] < r[l]
    ensures forall i :: 0 <= i < n && Format(ps[i]).Some? ==> i in r
  {
    if n == 0 then [] else Known(ps, n - 1) + (if Format(ps[n - 1]).Some? then [n - 1] else [])
  }

  /** The drawing inputs once every download has succeeded. */
  function JobOf(req: RenderRequest, f: Fetches, stamp: nat -> Time): Job
    requires HasRequiredFields(req)
    requires f.background.Fetched? && f.background.image.Picture?
    requires f.logo.Fetched? && f.logo.image.Picture?
  {
    Job(f.background.image.size, f.logo.image.size, Truthy(req.agentPhotoUrl),
        if Truthy(req.toneOverlay) then req.toneOverlay else None,
        TextLines(req), UserIdOf(req), PromoNameOf(req), stamp)
  }

  /** The checks before the platform loop, in their order: the required
      fields, then the downloads, then the decoding; none when all pass. */
  function Rejection(req: RenderRequest, f: Fetches): Option<Response<RenderPayload>>
  {
    var askedPhoto := Truthy(req.agentPhotoUrl);
    if !HasRequiredFields(req) then Some(Error(400, "Missing required fields"))
    else if f.background.Unreachable? then Some(ErrorWith(503, "Background image not reachable", f.background.message))
    else if f.logo.Unreachable? then Some(ErrorWith(503, "Logo image not reachable", f.logo.message))
    else if askedPhoto && f.photo.Unreachable? then Some(ErrorWith(503, "Agent photo not reachable", f.photo.message))
    else if f.background.image.Undecodable? then Some(ErrorWith(500, RenderFailed, f.background.image.message))
    else if f.logo.image.Undecodable? then Some(ErrorWith(500, RenderFailed, f.logo.image.message))
    else if askedPhoto && f.photo.image.Undecodable? then Some(ErrorWith(500, RenderFailed, f.photo.image.message))
    else None
  }

  /** Every download needed succeeded, whether or not it decodes. */
  predicate AllFetched(req: RenderRequest, f: Fetches)
  {
    f.background.Fetched? && f.logo.Fetched? && (Truthy(req.agentPhotoUrl) ==> f.photo.Fetched?)
  }

  /** Every download needed succeeded and decoded. */
  predicate AllDecoded(req: RenderRequest, f: Fetches)
  {
    && f.background.Fetched? && f.background.image.Picture?
    && f.logo.Fetched? && f.logo.image.Picture?
    && (Truthy(req.agentPhotoUrl) ==> f.photo.Fetched? && f.photo.image.Picture?)
  }

  function RenderSpec(w: World, req: RenderRequest, f: Fetches, stamp: nat -> Time): Step<RenderPayload>
  {
    match Rejection(req, f)
    case Some(e) => Step(e, w)
    case None =>
      var ps := PlatformsOf(req);
      var r := RenderPrefix(w, JobOf(req, f, stamp), ps, |ps|);
      Step(Ok(RenderPayload(r.urls)), r.world)
  }

  /** The handler. */
  method RenderAd(store: Store, req: RenderRequest, f: Fetches, stamp: nat -> Time) returns (resp: Response<RenderPayload>)
    modifies store
    ensures Step(resp, store.Snapshot()) == RenderSpec(old(store.Snapshot()), req, f, stamp)
  {
    if !HasRequiredFields(req) {
      return Error(400, "Missing required fields");
    }
    if f.background.Unreachable? {
      return ErrorWith(503, "Background image not reachable", f.background.message);
    }
    if f.logo.Unreachable? {
      return ErrorWith(503, "Logo image not reachable", f.logo.message);
    }
    if Truthy(req.agentPhotoUrl) && f.photo.Unreachable? {
      return ErrorWith(503, "Agent photo not reachable", f.photo.message);
    }
    if f.background.image.Undecodable? {
      return ErrorWith(500, RenderFailed, f.background.image.message);
    }
    if f.logo.image.Undecodable? {
      return ErrorWith(500, RenderFailed, f.logo.image.message);
    }
    if Truthy(req.agentPhotoUrl) && f.photo.image.Undecodable? {
      return ErrorWith(500, RenderFailed, f.photo.image.message);
    }
    var urls := RenderPlatforms(store, JobOf(req, f, stamp), PlatformsOf(req));
    resp := Ok(RenderPayload(urls));
  }

  /** `for (const platform of platforms)`: look the platform up, lay the
      canvas out, save it, push its URL. */
  method RenderPlatforms(store: Store, job: Job, ps: seq<string>) returns (urls: seq<string>)
    modifies store
    ensures Progress(urls, store.Snapshot()) == RenderPrefix(old(store.Snapshot()), job, ps, |ps|)
  {
    urls := [];
    for i := 0 to |ps|
      invariant Progress(urls, store.Snapshot()) == RenderPrefix(old(store.Snapshot()), job, ps, i)
    {
      var format := Format(ps[i]);
      if format.None? {
        continue;
      }
      var canvas := format.value;
      var background := CoverBox(job.background, canvas);
      var lW, lH := FitLogoSize(job.logo);
      var logo := Box(canvas.width - lW - Padding, canvas.height - RibbonHeight - SpacingAboveRibbon - lH, lW, lH);
      var baselines := TextBaselines(canvas.height, job.lines);
      var name := FileName(job.userId, job.promoName, ps[i], job.stamp(i));
      store.WriteFile(OutputDir + name, BrandedPng(canvas, background, logo, job.lines, baselines, job.photo, job.tone));
      urls := urls + ["/render-ad-image/" + name];
    }
  }

  // ---------------------------------------------------------------------
  // Properties.

  /** A missing required field is answered 400 before anything is fetched. */
  lemma RejectsMissingFields(w: World, req: RenderRequest, f: Fetches, stamp: nat -> Time)
    requires !HasRequiredFields(req)
    ensures RenderSpec(w, req, f, stamp) == Step(Error(400, "Missing required fields"), w)
  {
  }

  /** A failed download is answered 503, naming the image, in the order the
      downloads are made; once every download succeeded, the first image that
      does not decode is answered 500 with the decoder's message; in every
      case nothing is written. */
  lemma FailuresChangeNothing(w: World, req: RenderRequest, f: Fetches, stamp: nat -> Time)
    requires HasRequiredFields(req)
    ensures var s := RenderSpec(w, req, f, stamp);
            && (!s.resp.Ok? ==> s.world == w)
            && (f.background.Unreachable? ==> s.resp == ErrorWith(503, "Background image not reachable", f.background.message))
            && (f.background.Fetched? && f.logo.Unreachable? ==> s.resp == ErrorWith(503, "Logo image not reachable", f.logo.message))
            && (f.background.Fetched? && f.logo.Fetched? && Truthy(req.agentPhotoUrl) && f.photo.Unreachable? ==>
                  s.resp == ErrorWith(503, "Agent photo not reachable", f.photo.message))
            && (AllFetched(req, f) && f.background.image.Undecodable? ==>
                  s.resp == ErrorWith(500, RenderFailed, f.background.image.message))
            && (AllFetched(req, f) && f.background.image.Picture? && f.logo.image.Undecodable? ==>
                  s.resp == ErrorWith(500, RenderFailed, f.logo.image.message))
            && (AllFetched(req, f) && f.background.image.Picture? && f.logo.image.Picture?
                && Truthy(req.agentPhotoUrl) && f.photo.image.Undecodable? ==>
                  s.resp == ErrorWith(500, RenderFailed, f.photo.image.message))
            && (s.resp.Ok? <==> AllDecoded(req, f))
  {
    RejectionFacts(req, f);
  }

  lemma RejectionFacts(req: RenderRequest, f: Fetches)
    ensures Rejection(req, f).None? <==> HasRequiredFields(req) && AllDecoded(req, f)
    ensures Rejection(req, f).Some? ==> !Rejection(req, f).value.Ok?
  {
  }

  /** The agent photo is downloaded only when the request names one: its
      outcome cannot change the response otherwise. */
  lemma PhotoOnlyWhenNamed(w: World, req: RenderRequest, f: Fetches, photo: Fetch, stamp: nat -> Time)
    requires !Truthy(req.agentPhotoUrl)
    ensures RenderSpec(w, req, f, stamp) == RenderSpec(w, req, f.(photo := photo), stamp)
  {
    var f' := f.(photo := photo);
    assert Rejection(req, f) == Rejection(req, f');
    if Rejection(req, f).None? {
      RejectionFacts(req, f);
      assert JobOf(req, f, stamp) == JobOf(req, f', stamp);
    }
  }

  /** The loop pushes exactly one URL per known platform, in the order the
      platforms are listed. */
  lemma {:induction false} PrefixUrls(w: World, job: Job, ps: seq<string>, n: nat)
    requires n <= |ps|
    ensures var r := RenderPrefix(w, job, ps, n);
            var known := Known(ps, n);
            |r.urls| == |known| && forall k :: 0 <= k < |known| ==> r.urls[k] == UrlOf(job, ps, known[k])
  {
    if n > 0 {
      PrefixUrls(w, job, ps, n - 1);
    }
  }

  /** A rendering of the i-th platform at its own path. */
  predicate RenderedAt(job: Job, ps: seq<string>, path: string, file: File)
  {
    exists i :: 0 <= i < |ps| && Format(ps[i]).Some? && path == PathOf(job, ps, i) && file == Draw(job, Format(ps[i]).value)
  }

  /** The loop touches only files: it keeps every file it does not write,
      every changed file is the canvas of a listed known platform (sized as
      FORMAT_MAP says) saved under that platform's name, and every known
      platform's file exists afterwards. */
  lemma {:induction false} PrefixWrites(w: World, job: Job, ps: seq<string>, n: nat)
    requires n <= |ps|
    ensures var r := RenderPrefix(w, job, ps, n);
            && r.world.ledger == w.ledger && r.world.assets == w.assets
            && w.files.Keys <= r.world.files.Keys
            && (forall path :: path in r.world.files && (path !in w.files || r.world.files[path] != w.files[path])
                  ==> RenderedAt(job, ps, path, r.world.files[path]))
            && (forall i :: 0 <= i < n && Format(ps[i]).Some? ==> PathOf(job, ps, i) in r.world.files)
  {
    if n > 0 {
      PrefixWrites(w, job, ps, n - 1);
      var before := RenderPrefix(w, job, ps, n - 1);
      var r := RenderPrefix(w, job, ps, n);
      if Format(ps[n - 1]).Some? {
        var path := PathOf(job, ps, n - 1);
        forall p | p in r.world.files && (p !in w.files || r.world.files[p] != w.files[p])
          ensures RenderedAt(job, ps, p, r.world.files[p])
        {
          if p != path {
            assert r.world.files[p] == before.world.files[p];
          }
        }
      }
    }
  }

  /** A successful render answers with one URL per known platform, in
      request order, and leaves the ledger and the assets as they were. */
  lemma RenderSucceeds(w: World, req: RenderRequest, f: Fetches, stamp: nat -> Time)
    requires RenderSpec(w, req, f, stamp).resp.Ok?
    ensures HasRequiredFields(req) && AllDecoded(req, f)
    ensures var s := RenderSpec(w, req, f, stamp);
            var ps := PlatformsOf(req);
            var known := Known(ps, |ps|);
            var job := JobOf(req, f, stamp);
            && |s.resp.payload.urls| == |known|
            && (forall k :: 0 <= k < |known| ==> s.resp.payload.urls[k] == UrlOf(job, ps, known[k]))
            && s.world.ledger == w.ledger && s.world.assets == w.assets
            && (forall i :: 0 <= i < |ps| && Format(ps[i]).Some? ==> PathOf(job, ps, i) in s.world.files)
  {
    RejectionFacts(req, f);
    var ps := PlatformsOf(req);
    PrefixUrls(w, JobOf(req, f, stamp), ps, |ps|);
    PrefixWrites(w, JobOf(req, f, stamp), ps, |ps|);
  }

  /** Without `platforms`, `userId` or `promoName`, one Instagram post is
      rendered, named after the defaults. */
  lemma DefaultsRenderOnePost(w: World, req: RenderRequest, f: Fetches, stamp: nat -> Time)
    requires RenderSpec(w, req, f, stamp).resp.Ok?
    requires req.platforms.None? && req.userId.None? && req.promoName.None?
    ensures RenderSpec(w, req, f, stamp).resp.payload.urls
            == ["/render-ad-image/" + FileName("client", "ad", "instagram_post", stamp(0))]
  {
    RejectionFacts(req, f);
    var ps := PlatformsOf(req);
    var job := JobOf(req, f, stamp);
    assert ps == ["instagram_post"];
    OnePlatform(w, job, ps);
  }

  lemma OnePlatform(w: World, job: Job, ps: seq<string>)
    requires |ps| == 1 && Format(ps[0]).Some?
    ensures RenderPrefix(w, job, ps, 1).urls == [UrlOf(job, ps, 0)]
  {
  }

  /** A promotion name without whitespace is used as it is. */
  lemma FileNameOfPlainPromo(userId: string, promoName: string, platform: string, t: Time)
    requires NoSpace(promoName)
    ensures FileName(userId, promoName, platform, t)
            == userId + "_" + promoName + "_" + Upper(platform) + "_" + NatToString(t) + ".png"
  {
    ReplaceOfSpaceFree(promoName, "_", false);
  }
}
