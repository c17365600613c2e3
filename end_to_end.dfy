/** How the parts fit together: the links the components and the page
    write, read by the routes they point to. */
module EndToEnd {
  import opened Js
  import opened Urls
  import opened Http
  import opened Images
  import opened ClientOld
  import opened Page
  import Proxy = ImageProxy
  import Gen = GenerateImage

  /** A proxy link's `delay`, read by the proxy as `parseInt`. */
  lemma ReadDelay(u: string, ms: int)
    ensures var q := ProxyQuery(u, ShowInt(ms));
      Get(q, "url") == Some(u) && ParseOr(Get(q, "delay"), 0) == Int(ms)
  {
    ParseShowInt(ms);
    assert ShowInt(ms) != "";
  }

  /** An external image with a positive delay of `d` milliseconds links to
      the proxy with `delay=d`; the proxy as written then waits a thousand
      times that, while the corrected proxy waits `d`. */
  lemma ImageDelayThroughProxy(image: ImageConfig, base: string, fetched: Proxy.Fetched)
    requires image.kind == External && Truthy(image.url) && Positive(image.delay)
    ensures var link := ImageLink(image, base).value;
      && link.route == ImageProxy
      && Proxy.Handle(link.query, fetched).steps
         == [Sleep(image.delay.i * 1000), Fetch(image.url.value, Proxy.UserAgent)]
      && Proxy.HandleCorrected(link.query, fetched).steps
         == [Sleep(image.delay.i), Fetch(image.url.value, Proxy.UserAgent)]
  {
    ReadDelay(image.url.value, image.delay.i);
  }

  /** The page's proxy link for `image_delay` of `s` seconds makes the
      proxy as written wait `s` million milliseconds, the corrected one `s`
      thousand. */
  lemma PageDelayThroughProxy(fs: Fields, base: string, fetched: Proxy.Fetched, s: int)
    requires fs.image != "" && ParseInt(fs.imageDelay) == Int(s) && s > 0
    ensures var link := FinalImageLink(fs, base).value;
      && link.route == ImageProxy
      && Proxy.Handle(link.query, fetched).steps == [Sleep(s * 1000 * 1000), Fetch(fs.image, Proxy.UserAgent)]
      && Proxy.HandleCorrected(link.query, fetched).steps == [Sleep(s * 1000), Fetch(fs.image, Proxy.UserAgent)]
  {
    ReadDelay(fs.image, s * 1000);
  }

  /** The generator, given a generated image's link, waits exactly the
      image's delay in milliseconds: the unit the proxy should share. */
  lemma GeneratorWaitsMilliseconds(image: ImageConfig, base: string)
    requires image.kind == Generate && (Truthy(image.size) || Truthy(image.width) || Truthy(image.height))
    requires Positive(image.delay)
    ensures var q := ImageLink(image, base).value.query;
      && Gen.Requested(q).delay == image.delay
      && SleepFor(Gen.Requested(q).delay, 1) == [Sleep(image.delay.i)]
  {
    GeneratedLink(image, base);
    ParseShowInt(image.delay.i);
    assert ShowInt(image.delay.i) != "";
  }

  // ---------------------------------------------------------------------
  // The single-image test URL, read back

  /** The two delays of the test URL, in the page's terms: a positive
      delay's whole seconds, and 0 otherwise. */
  lemma {:induction false} PageReadsTestDelays(f: Form)
    ensures var fs := Read(ParamsOf(TestQuery(f)));
      && Times(ParseInt(fs.delay), 1000) == WholePart(f.delay)
      && Times(ParseInt(fs.imageDelay), 1000) == WholePart(f.imageDelay)
  {
    var q := TestQuery(f);
    TestQueryParams(f);
    ParamOfQuery(q, "delay", "0");
    ParamOfQuery(q, "image_delay", "0");
    ParseDefault(Get(q, "delay"), 0);
    ParseDefault(Get(q, "image_delay"), 0);
    assert ShowInt(0) == "0";
    ReloadedDelay(q, "delay", f.delay);
    ReloadedDelay(q, "image_delay", f.imageDelay);
  }

  /** The page served for the single-image simulator's test URL waits the
      whole seconds of its delay, so a half second is dropped: 1.5 s waits
      1000 ms. */
  lemma PageWaitForTestUrl(f: Form)
    requires Positive(f.delay)
    ensures var d := ParseInt(Read(ParamsOf(TestQuery(f))).delay);
      && (Positive(d) <==> f.delay.i >= 1000)
      && (Positive(d) ==> d.i * 1000 == f.delay.i - f.delay.i % 1000)
  {
    PageReadsTestDelays(f);
  }

  /** The image fields of the test URL, as the page reads them. */
  lemma {:induction false} PageReadsTestImage(f: Form)
    ensures var fs, dims := Read(ParamsOf(TestQuery(f))), f.imageUrl == "" && f.generateImage;
      && fs.image == f.imageUrl
      && fs.imageSize == (if dims && Preset(f) then f.imageSize else "")
      && fs.imageWidth == (if dims && f.imageWidth != "" && !Preset(f) then f.imageWidth else "")
      && fs.imageHeight == (if dims && f.imageHeight != "" && !Preset(f) then f.imageHeight else "")
  {
    var q := TestQuery(f);
    TestQueryParams(f);
    TestQueryDimensions(f);
    ParamOfQuery(q, "image", "");
    ParamOfQuery(q, "image_size", "");
    ParamOfQuery(q, "image_width", "");
    ParamOfQuery(q, "image_height", "");
  }

  /** The image delay the page writes into its links for the test URL:
      the whole seconds of the simulator's image delay, in milliseconds. */
  lemma PageImageDelay(f: Form)
    ensures ImageDelayText(Read(ParamsOf(TestQuery(f)))) == ShowNum(WholePart(f.imageDelay))
  {
    PageReadsTestDelays(f);
  }

  /** The page shared with the test URL shows the image the simulator's
      meta tags show, provided the image delay is a whole number of
      seconds: the same proxy link, the same generator link, or none. */
  lemma PageMatchesMetaTags(f: Form, base: string)
    requires WholeSeconds(f.imageDelay)
    ensures FinalImageLink(Read(ParamsOf(TestQuery(f))), base) == CurrentImageLink(f, base)
  {
    var fs := Read(ParamsOf(TestQuery(f)));
    PageImageDelay(f);
    assert WholePart(f.imageDelay) == f.imageDelay;
    PageReadsTestImage(f);
    if f.imageUrl == "" && f.generateImage && !Preset(f) {
      assert GeneratorQuery(ImageDelayText(fs), fs.imageSize, fs.imageWidth, fs.imageHeight)
          == GeneratorQuery(ShowNum(f.imageDelay), f.imageSize, f.imageWidth, f.imageHeight);
    }
  }

  /** With a half second of image delay the two disagree: the page's proxy
      link asks for 1000 ms where the simulator's asks for 1500. */
  lemma PageDropsHalfSecond(f: Form, base: string)
    requires f.imageUrl != "" && f.imageDelay == Int(1500)
    ensures FinalImageLink(Read(ParamsOf(TestQuery(f))), base)
         == Some(Endpoint(base, ImageProxy, ProxyQuery(f.imageUrl, "1000")))
    ensures CurrentImageLink(f, base) == Some(Endpoint(base, ImageProxy, ProxyQuery(f.imageUrl, "1500")))
  {
    var fs := Read(ParamsOf(TestQuery(f)));
    PageImageDelay(f);
    PageReadsTestImage(f);
    assert WholePart(f.imageDelay) == Int(1000);
    assert ShowInt(1000) == "1000";
    assert ImageDelayText(fs) == "1000" && fs.image == f.imageUrl;
    assert ShowInt(1500) == "1500";
  }

  // ---------------------------------------------------------------------
  // The legacy entry

  /** Loading the test URL of an image with `s` whole seconds of delay,
      the single-image form holds `s` seconds but the legacy entry, as
      written, `s` thousandths of a second, and its proxy link asks for `s`
      milliseconds where the page's asks for `s` thousand. */
  lemma LegacyEntryThousandth(f: Form, base: string, s: int)
    requires f.imageUrl != "" && f.imageDelay == Int(s * 1000) && s > 0
    ensures var q := TestQuery(f);
      && LoadedForm(q, f.generateImage).imageDelay == Int(s * 1000)
      && LegacyImage(q) == Some(ImageConfig("legacy", External, Some(f.imageUrl), None, None, None, Int(s)))
      && ImageLink(LegacyImage(q).value, base) == Some(Endpoint(base, ImageProxy, ProxyQuery(f.imageUrl, ShowInt(s))))
      && FinalImageLink(Read(ParamsOf(q)), base)
         == Some(Endpoint(base, ImageProxy, ProxyQuery(f.imageUrl, ShowInt(s * 1000))))
  {
    LegacyEntryOfTestUrl(f, 1);
    PageProxyForTestUrl(f, base);
  }

  /** The legacy entry of the test URL of an image with a url, its delay
      `parseInt(image_delay)` times `scale` thousandths of a second, and
      the single-image form's image delay. */
  lemma LegacyEntryOfTestUrl(f: Form, scale: int)
    requires f.imageUrl != "" && WholeSeconds(f.imageDelay) && Positive(f.imageDelay)
    ensures var q := TestQuery(f);
      && LoadedForm(q, f.generateImage).imageDelay == f.imageDelay
      && LegacyEntry(q, scale)
         == Some(ImageConfig("legacy", External, Some(f.imageUrl), None, None, None,
                             Int(f.imageDelay.i / 1000 * scale)))
  {
    var q := TestQuery(f);
    TestImageFields(f);
    ReloadedDelay(q, "image_delay", f.imageDelay);
  }

  /** The page's link for the test URL of an image with a url and a delay
      of whole seconds: the proxy, with that delay in milliseconds. */
  lemma PageProxyForTestUrl(f: Form, base: string)
    requires f.imageUrl != "" && WholeSeconds(f.imageDelay)
    ensures FinalImageLink(Read(ParamsOf(TestQuery(f))), base)
         == Some(Endpoint(base, ImageProxy, ProxyQuery(f.imageUrl, ShowNum(f.imageDelay))))
  {
    PageMatchesMetaTags(f, base);
  }

  /** The image fields of the test URL of an image with a url and no
      dimensions written. */
  lemma TestImageFields(f: Form)
    requires f.imageUrl != ""
    ensures Get(TestQuery(f), "image") == Some(f.imageUrl)
    ensures Get(TestQuery(f), "image_delay") == if Positive(f.imageDelay) then Some(ShowSecondsNum(f.imageDelay)) else None
    ensures !Has(TestQuery(f), "image_width") && !Has(TestQuery(f), "image_height") && !Has(TestQuery(f), "image_size")
  {
    TestQueryParams(f);
    TestQueryDimensions(f);
  }

  /** Read as seconds, the legacy entry keeps the delay of the test URL's
      image, so its proxy link is the one the page and the simulator's meta
      tags write. */
  lemma LegacyEntryCorrected(f: Form, base: string)
    requires f.imageUrl != "" && WholeSeconds(f.imageDelay) && Positive(f.imageDelay)
    ensures var q := TestQuery(f);
      && LegacyImageCorrected(q).Some? && LegacyImageCorrected(q).value.delay == f.imageDelay
      && ImageLink(LegacyImageCorrected(q).value, base) == CurrentImageLink(f, base)
      && ImageLink(LegacyImageCorrected(q).value, base) == FinalImageLink(Read(ParamsOf(q)), base)
  {
    LegacyEntryOfTestUrl(f, 1000);
    PageProxyForTestUrl(f, base);
  }

  /** The two unit slips cancel on the path from a test URL through the
      legacy entry to the proxy: an image delay of `s` seconds becomes an
      entry of `s` milliseconds whose link makes the proxy as written wait
      `s` seconds, the right time. Correcting only the proxy would make it
      wait `s` milliseconds; correcting both gives `s` seconds again. */
  lemma LegacyThroughProxy(f: Form, base: string, fetched: Proxy.Fetched, s: int)
    requires f.imageUrl != "" && f.imageDelay == Int(s * 1000) && s > 0
    ensures var q := TestQuery(f);
      && LegacyImage(q).Some? && ImageLink(LegacyImage(q).value, base).Some?
      && ImageLink(LegacyImage(q).value, base).value.Endpoint?
      && LegacyImageCorrected(q).Some? && ImageLink(LegacyImageCorrected(q).value, base).Some?
      && ImageLink(LegacyImageCorrected(q).value, base).value.Endpoint?
      && var asWritten := ImageLink(LegacyImage(q).value, base).value.query;
         var corrected := ImageLink(LegacyImageCorrected(q).value, base).value.query;
         && Proxy.Handle(asWritten, fetched).steps == [Sleep(s * 1000), Fetch(f.imageUrl, Proxy.UserAgent)]
         && Proxy.HandleCorrected(asWritten, fetched).steps == [Sleep(s), Fetch(f.imageUrl, Proxy.UserAgent)]
         && Proxy.HandleCorrected(corrected, fetched).steps == [Sleep(s * 1000), Fetch(f.imageUrl, Proxy.UserAgent)]
  {
    assert (s * 1000) / 1000 == s;
    EntryThroughProxy(f, base, fetched, 1);
    EntryThroughProxy(f, base, fetched, 1000);
  }

  /** The proxy link of the test URL's legacy entry, its delay read at
      `scale`, and the waits of the two proxies on it. */
  lemma EntryThroughProxy(f: Form, base: string, fetched: Proxy.Fetched, scale: int)
    requires f.imageUrl != "" && WholeSeconds(f.imageDelay) && Positive(f.imageDelay) && scale > 0
    ensures var e, d := LegacyEntry(TestQuery(f), scale), f.imageDelay.i / 1000 * scale;
      && e.Some? && ImageLink(e.value, base).Some? && ImageLink(e.value, base).value.Endpoint?
      && var link := ImageLink(e.value, base).value.query;
         && Proxy.Handle(link, fetched).steps == [Sleep(d * 1000), Fetch(f.imageUrl, Proxy.UserAgent)]
         && Proxy.HandleCorrected(link, fetched).steps == [Sleep(d), Fetch(f.imageUrl, Proxy.UserAgent)]
  {
    LegacyEntryOfTestUrl(f, scale);
    var e := LegacyEntry(TestQuery(f), scale).value;
    var k := f.imageDelay.i / 1000;
    assert k > 0 by {
      assert f.imageDelay.i == 1000 * k;
    }
    PositiveProduct(k, scale);
    ImageDelayThroughProxy(e, base, fetched);
  }

  lemma PositiveProduct(a: int, b: int)
    requires a > 0 && b > 0
    ensures a * b > 0
  {
  }
}
