/** The layout arithmetic of server/routes/renderAdImage.js: the canvas
    size of each platform, the background scaled to cover the canvas, the
    logo fitted into its box above the call-to-action ribbon, and the
    baselines of the agent's text lines. Lengths are pixels, as `real`. */
module AdLayout {
  import opened Common

  /** A positive length: the size of a decoded image or of a canvas. */
  type Extent = r: real | r > 0.0 witness 1.0

  datatype Size = Size(width: Extent, height: Extent)

  /** Where `ctx.drawImage` puts an image: top-left corner, width, height. */
  datatype Box = Box(x: real, y: real, w: real, h: real)

  /** The platforms `FORMAT_MAP` knows, in its order. */
  const Platforms: seq<string> :=
    ["instagram_post", "facebook_story", "linkedin_ad", "facebook_post", "youtube_shorts", "instagram_reel"]

  /** `FORMAT_MAP[platform]`. */
  function Format(platform: string): Option<Size>
  {
    if platform == "instagram_post" then Some(Size(1024.0, 1024.0))
    else if platform == "facebook_story" then Some(Size(1080.0, 1920.0))
    else if platform == "linkedin_ad" then Some(Size(1200.0, 628.0))
    else if platform == "facebook_post" then Some(Size(1200.0, 628.0))
    else if platform == "youtube_shorts" then Some(Size(1080.0, 1920.0))
    else if platform == "instagram_reel" then Some(Size(1080.0, 1920.0))
    else None
  }

  /** FORMAT_MAP knows exactly the six listed platforms. */
  lemma FormatKnowsPlatforms(platform: string)
    ensures Format(platform).Some? <==> platform in Platforms
  {
  }

  /** Every canvas is at least 1024 wide and 628 high, and the portrait
      formats are the 1080 x 1920 ones. */
  lemma FormatSizes(platform: string)
    requires Format(platform).Some?
    ensures var c := Format(platform).value;
            && c.width >= 1024.0 && c.height >= 628.0
            && (c.height > c.width <==> c == Size(1080.0, 1920.0))
  {
  }

  /** A box of the given size centred on the canvas. */
  function Centred(canvas: Size, w: real, h: real): Box
  {
    Box((canvas.width - w) / 2.0, (canvas.height - h) / 2.0, w, h)
  }

  /** The background's draw box: the image scaled, keeping its aspect
      ratio, until it covers the canvas, then centred. */
  function Cover(image: Size, canvas: Size): Box
  {
    var ratio := image.width / image.height;
    if ratio > canvas.width / canvas.height then Centred(canvas, ratio * canvas.height, canvas.height)
    else Centred(canvas, canvas.width, canvas.width / ratio)
  }

  /** The draw box covers the whole canvas, keeps the image's aspect ratio,
      matches the canvas along one side and is centred on it. */
  lemma CoverCoversCanvas(image: Size, canvas: Size)
    ensures var b := Cover(image, canvas);
            && b.w >= canvas.width && b.h >= canvas.height
            && b.w * image.height == b.h * image.width
            && (b.w == canvas.width || b.h == canvas.height)
            && b.x + b.w / 2.0 == canvas.width / 2.0 && b.y + b.h / 2.0 == canvas.height / 2.0
  {
    var ratio := image.width / image.height;
    var b := Cover(image, canvas);
    assert ratio * image.height == image.width;
    if ratio > canvas.width / canvas.height {
      assert b.w == ratio * canvas.height;
      assert (canvas.width / canvas.height) * canvas.height == canvas.width;
      MulStrict(canvas.width / canvas.height, ratio, canvas.height);
    } else {
      assert b.h * ratio == canvas.width;
      assert (canvas.width / canvas.height) * canvas.height == canvas.width;
      MulWeak(ratio, canvas.width / canvas.height, canvas.height);
      assert b.h * ratio >= canvas.height * ratio;
      DivideBack(b.h, canvas.height, ratio);
    }
  }

  lemma MulStrict(a: real, b: real, c: real)
    requires a < b && c > 0.0
    ensures a * c < b * c
  {
  }

  lemma MulWeak(a: real, b: real, c: real)
    requires a <= b && c > 0.0
    ensures a * c <= b * c
  {
  }

  lemma DivideBack(a: real, b: real, c: real)
    requires a * c >= b * c && c > 0.0
    ensures a >= b
  {
  }

  /** The background step of the platform loop: `drawW` and `drawH` start
      at the canvas size and are reassigned by the aspect-ratio test. */
  method CoverBox(image: Size, canvas: Size) returns (b: Box)
    ensures b == Cover(image, canvas)
  {
    var ratio := image.width / image.height;
    var drawW := canvas.width;
    var drawH := canvas.height;
    if ratio > canvas.width / canvas.height {
      drawH := canvas.height;
      drawW := ratio * canvas.height;
    } else {
      drawW := canvas.width;
      drawH := canvas.width / ratio;
    }
    b := Box((canvas.width - drawW) / 2.0, (canvas.height - drawH) / 2.0, drawW, drawH);
  }

  const LogoMaxWidth: real := 180.0
  const LogoMaxHeight: real := 120.0
  const Padding: real := 20.0
  const RibbonHeight: real := 64.0
  const SpacingAboveRibbon: real := 20.0

  /** The logo's size: capped at 180 wide, then at 120 high, each cap
      rescaling the other side by the logo's aspect ratio. */
  function FitLogo(logo: Size): Size
  {
    var aspect := logo.width / logo.height;
    var first := if logo.width > LogoMaxWidth then Size(LogoMaxWidth, LogoMaxWidth / aspect) else logo;
    if first.height > LogoMaxHeight then Size(LogoMaxHeight * aspect, LogoMaxHeight) else first
  }

  /** The fitted logo lies within 180 x 120, is never enlarged, keeps the
      logo's aspect ratio, is the logo itself when that already fits, and
      otherwise reaches one of the two caps. */
  lemma LogoFits(logo: Size)
    ensures var f := FitLogo(logo);
            && f.width <= LogoMaxWidth && f.height <= LogoMaxHeight
            && f.width <= logo.width && f.height <= logo.height
            && f.width * logo.height == f.height * logo.width
            && (logo.width <= LogoMaxWidth && logo.height <= LogoMaxHeight ==> f == logo)
            && (logo.width > LogoMaxWidth || logo.height > LogoMaxHeight ==> f.width == LogoMaxWidth || f.height == LogoMaxHeight)
  {
    var aspect := logo.width / logo.height;
    assert aspect * logo.height == logo.width;
    var first := if logo.width > LogoMaxWidth then Size(LogoMaxWidth, LogoMaxWidth / aspect) else logo;
    if logo.width > LogoMaxWidth {
      assert first.height * aspect == LogoMaxWidth;
      assert first.height * aspect < logo.height * aspect;
      DivideBack(logo.height, first.height, aspect);
      assert first.width * logo.height == first.height * logo.width by {
        assert first.height * logo.width == first.height * aspect * logo.height;
      }
    }
    assert first.width * logo.height == first.height * logo.width;
    assert first.width <= LogoMaxWidth && first.width <= logo.width && first.height <= logo.height;
    if first.height > LogoMaxHeight {
      var f := FitLogo(logo);
      assert f.width == LogoMaxHeight * aspect;
      assert first.width == first.height * aspect;
      MulStrict(LogoMaxHeight, first.height, aspect);
      assert f.width * logo.height == f.height * logo.width by {
        assert f.width * logo.height == LogoMaxHeight * (aspect * logo.height);
      }
    }
  }

  /** The logo step of the platform loop: `lW` and `lH` start at the logo's
      size and each cap reassigns both. */
  method FitLogoSize(logo: Size) returns (lW: real, lH: real)
    ensures lW > 0.0 && lH > 0.0 && Size(lW, lH) == FitLogo(logo)
  {
    lW, lH := logo.width, logo.height;
    var aspect := logo.width / logo.height;
    if lW > LogoMaxWidth {
      lW := LogoMaxWidth;
      lH := LogoMaxWidth / aspect;
    }
    if lH > LogoMaxHeight {
      lH := LogoMaxHeight;
      lW := LogoMaxHeight * aspect;
    }
  }

  /** The logo's draw box: its right edge 20 in from the canvas's, its
      bottom edge 20 above the 64-high ribbon. */
  function LogoBox(canvas: Size, logo: Size): Box
  {
    var f := FitLogo(logo);
    Box(canvas.width - f.width - Padding, canvas.height - RibbonHeight - SpacingAboveRibbon - f.height, f.width, f.height)
  }

  /** On every platform's canvas the logo box lies inside the canvas, ends
      20 left of its right edge and 84 above its bottom, clear of the ribbon. */
  lemma LogoInsideCanvas(platform: string, logo: Size)
    requires Format(platform).Some?
    ensures var c := Format(platform).value;
            var b := LogoBox(c, logo);
            && b.x >= 0.0 && b.y >= 0.0
            && b.x + b.w == c.width - Padding
            && b.y + b.h == c.height - RibbonHeight - SpacingAboveRibbon
  {
    FormatSizes(platform);
    LogoFits(logo);
  }

  /** `let y = height - 300`, then `y += 40` after each line. */
  function Baselines(height: real, n: nat): (ys: seq<real>)
  {
    seq(n, i requires 0 <= i < n => height - 300.0 + 40.0 * i as real)
  }

  /** The text loop: one `fillText` per line, recording where it went. */
  method TextBaselines(height: real, lines: seq<string>) returns (ys: seq<real>)
    ensures ys == Baselines(height, |lines|)
  {
    ys := [];
    var y := height - 300.0;
    for i := 0 to |lines|
      invariant ys == Baselines(height, i)
      invariant y == height - 300.0 + 40.0 * i as real
    {
      ys := ys + [y];
      y := y + 40.0;
    }
  }

  /** The five text lines sit inside the shaded panel (from 340 to 120
      above the bottom), above the ribbon, each 40 below the last. */
  lemma TextInsidePanel(height: real, n: nat)
    requires n <= 5
    ensures var ys := Baselines(height, n);
            && (forall i :: 0 <= i < n ==> height - 340.0 < ys[i] < height - 120.0)
            && (forall i :: 0 < i < n ==> ys[i] == ys[i - 1] + 40.0)
  {
  }
}
