/** The page's metadata (app/page.tsx, `generateMetadata`): the texts from
    the query parameters or their defaults, a wait of `delay` seconds, the
    absolute base URL from the request headers, and the Open Graph and
    Twitter image chosen from the single-image parameters. The page reads
    `delay` and `image_delay` as numbers of seconds. */
module Page {
  import opened Js
  import opened Urls
  import opened Http
  import Images

  /** The query parameters, each with one value. */
  type Params = map<string, string>

  /** `params.k as string || d`. */
  function Param(p: Params, k: string, d: string): (r: string)
    ensures k in p && p[k] != "" ==> r == p[k]
    ensures !(k in p && p[k] != "") ==> r == d
  {
    if k in p && p[k] != "" then p[k] else d
  }

  /** The parameters after the defaults. */
  datatype Fields = Fields(
    title: string,
    description: string,
    url: string,
    image: string,
    siteName: string,
    delay: string,
    imageDelay: string,
    imageWidth: string,
    imageHeight: string,
    imageSize: string)

  function Read(p: Params): (fs: Fields)
    ensures fs.title != "" && fs.description != "" && fs.siteName != ""
    ensures fs.delay != "" && fs.imageDelay != ""
  {
    Fields(Param(p, "title", "OG Tag Simulator"),
           Param(p, "description", "Test and preview your Open Graph meta tags"),
           Param(p, "url", ""),
           Param(p, "image", ""),
           Param(p, "site_name", "OG Simulator"),
           Param(p, "delay", "0"),
           Param(p, "image_delay", "0"),
           Param(p, "image_width", ""),
           Param(p, "image_height", ""),
           Param(p, "image_size", ""))
  }

  /** The object the framework makes of a query string: each name with
      its first value. */
  function ParamsOf(q: Query): Params {
    if q == [] then map[] else ParamsOf(q[1..])[q[0].0 := q[0].1]
  }

  /** Reading a parameter of that object is reading the query. */
  lemma {:induction false} ParamOfQuery(q: Query, k: string, d: string)
    ensures k in ParamsOf(q) <==> Has(q, k)
    ensures Param(ParamsOf(q), k, d) == ValueOr(q, k, d)
  {
    if q != [] {
      ParamOfQuery(q[1..], k, d);
    }
  }

  /** Whether the parameter is given and not empty. */
  predicate Given(p: Params, k: string) {
    k in p && p[k] != ""
  }

  /** A parameter given and not empty is read as it is; one absent or empty
      takes its default: the page's own title, description and site name,
      no image, and no delay. */
  lemma ReadDefaults(p: Params)
    ensures Read(p).title == if Given(p, "title") then p["title"] else "OG Tag Simulator"
    ensures Read(p).description ==
      if Given(p, "description") then p["description"] else "Test and preview your Open Graph meta tags"
    ensures Read(p).siteName == if Given(p, "site_name") then p["site_name"] else "OG Simulator"
    ensures Read(p).image == if Given(p, "image") then p["image"] else ""
    ensures !Given(p, "delay") ==> ParseInt(Read(p).delay) == Int(0)
    ensures !Given(p, "image_delay") ==> ParseInt(Read(p).imageDelay) == Int(0)
  {
    ParseShowInt(0);
    assert ShowInt(0) == "0";
  }

  /** The request headers the page reads, by lower-case name. */
  type RequestHeaders = map<string, string>

  /** `${protocol}://${host}`: `x-forwarded-proto` or "http", and `host`
      or "localhost:3000". */
  function PageBase(h: RequestHeaders): (r: string)
    ensures "x-forwarded-proto" !in h && "host" !in h ==> r == "http://localhost:3000"
  {
    var host := if "host" in h && h["host"] != "" then h["host"] else "localhost:3000";
    var protocol := if "x-forwarded-proto" in h && h["x-forwarded-proto"] != "" then h["x-forwarded-proto"] else "http";
    protocol + "://" + host
  }

  /** The base URL reads back as the protocol, then "://", then the host,
      each header when given and not empty, and its default otherwise. */
  lemma PageBaseParts(h: RequestHeaders)
    ensures var protocol, host := Param(h, "x-forwarded-proto", "http"), Param(h, "host", "localhost:3000");
      && |PageBase(h)| == |protocol| + 3 + |host|
      && PageBase(h)[..|protocol|] == protocol
      && PageBase(h)[|protocol|..|protocol| + 3] == "://"
      && PageBase(h)[|protocol| + 3..] == host
  {
    var protocol, host := Param(h, "x-forwarded-proto", "http"), Param(h, "host", "localhost:3000");
    assert PageBase(h) == protocol + "://" + host;
  }

  /** The image delay written into the image links: `parseInt(imageDelay) * 1000`. */
  function ImageDelayText(fs: Fields): string {
    ShowNum(Times(ParseInt(fs.imageDelay), 1000))
  }

  /** The final image link: an `image` goes through the proxy whatever
      else is given; otherwise any size (even "custom"), width or height
      gives a generator link; otherwise there is none. */
  function FinalImageLink(fs: Fields, base: string): (r: Option<Link>)
    ensures r.Some? <==> fs.image != "" || fs.imageSize != "" || fs.imageWidth != "" || fs.imageHeight != ""
    ensures r.Some? ==> r.value.Endpoint? && r.value.base == base
    ensures r.Some? ==> (r.value.route == ImageProxy <==> fs.image != "")
  {
    if fs.image != "" then
      Some(Endpoint(base, ImageProxy, Images.ProxyQuery(fs.image, ImageDelayText(fs))))
    else if fs.imageSize != "" || fs.imageWidth != "" || fs.imageHeight != "" then
      Some(Endpoint(base, GenerateImage,
                    GeneratorQuery(ImageDelayText(fs), fs.imageSize, fs.imageWidth, fs.imageHeight)))
    else None
  }

  /** The `let finalImageUrl` assignments, the generator's parameters set
      one after another. */
  method ChooseImage(fs: Fields, base: string) returns (finalImageUrl: Option<Link>)
    ensures finalImageUrl == FinalImageLink(fs, base)
  {
    finalImageUrl := None;
    if fs.image != "" {
      finalImageUrl := Some(Endpoint(base, ImageProxy, Images.ProxyQuery(fs.image, ImageDelayText(fs))));
    } else if fs.imageSize != "" || fs.imageWidth != "" || fs.imageHeight != "" {
      var imgParams := BuildGeneratorQuery(ImageDelayText(fs), fs.imageSize, fs.imageWidth, fs.imageHeight);
      finalImageUrl := Some(Endpoint(base, GenerateImage, imgParams));
    }
  }

  /** An Open Graph image object, `{ url }`. */
  datatype OgImage = OgImage(url: string)

  datatype OpenGraph = OpenGraph(
    title: string,
    description: string,
    url: string,
    siteName: string,
    kind: string,
    images: Option<seq<OgImage>>)

  datatype Twitter = Twitter(
    card: string,
    title: string,
    description: string,
    images: Option<seq<string>>)

  datatype Metadata = Metadata(title: string, description: string, openGraph: OpenGraph, twitter: Twitter)

  /** The returned metadata object: the image entries only when a final
      image link was chosen, as `[{ url }]` for Open Graph and as `[url]`
      for Twitter. */
  function MetadataFor(fs: Fields, link: Option<Link>): (m: Metadata)
    ensures m.title == m.openGraph.title == m.twitter.title == fs.title
    ensures m.description == m.openGraph.description == m.twitter.description == fs.description
    ensures m.openGraph.url == fs.url && m.openGraph.siteName == fs.siteName
  {
    Metadata(fs.title, fs.description,
             OpenGraph(fs.title, fs.description, fs.url, fs.siteName, "website",
                       if link.Some? then Some([OgImage(LinkText(link.value))]) else None),
             Twitter("summary_large_image", fs.title, fs.description,
                     if link.Some? then Some([LinkText(link.value)]) else None))
  }

  /** `generateMetadata`: the wait of `parseInt(delay) * 1000` ms when
      `parseInt(delay)` is positive, then the metadata. */
  method GenerateMetadata(p: Params, h: RequestHeaders) returns (steps: seq<Step>, m: Metadata)
    ensures steps == (if Positive(ParseInt(Read(p).delay)) then [Sleep(ParseInt(Read(p).delay).i * 1000)] else [])
    ensures m == MetadataFor(Read(p), FinalImageLink(Read(p), PageBase(h)))
  {
    var fs := Read(p);
    steps := [];
    if fs.delay != "" && Positive(ParseInt(fs.delay)) {
      steps := [Sleep(ParseInt(fs.delay).i * 1000)];
    }
    var baseUrl := PageBase(h);
    var finalImageUrl := ChooseImage(fs, baseUrl);
    m := MetadataFor(fs, finalImageUrl);
  }

  // ---------------------------------------------------------------------
  // Properties

  /** The page waits only for a positive whole number of seconds, and then
      that many thousand milliseconds; an absent, negative or unreadable
      delay means no wait. */
  lemma PageWait(p: Params, seconds: int)
    requires p == map["delay" := ShowInt(seconds)]
    ensures Positive(ParseInt(Read(p).delay)) <==> seconds > 0
    ensures seconds > 0 ==> ParseInt(Read(p).delay).i * 1000 == seconds * 1000
  {
    ParseShowInt(seconds);
    if seconds < 0 {
      assert ShowInt(seconds)[0] == '-';
    } else {
      assert ShowInt(seconds) != "";
    }
  }

  /** The Open Graph and Twitter images are there exactly when a final
      image link was chosen, and both hold that link's text. */
  lemma ImagesIffLink(fs: Fields, link: Option<Link>)
    ensures var m := MetadataFor(fs, link);
      && (m.openGraph.images.Some? <==> link.Some?)
      && (m.twitter.images.Some? <==> link.Some?)
      && (link.Some? ==> m.openGraph.images == Some([OgImage(LinkText(link.value))])
                         && m.twitter.images == Some([LinkText(link.value)]))
  {
  }

  /** An `image` parameter always gives the proxy link, whatever the size,
      width and height say, with the image delay in milliseconds. */
  lemma ImageWins(fs: Fields, fs': Fields, base: string)
    requires fs.image != "" && fs'.image == fs.image && fs'.imageDelay == fs.imageDelay
    ensures FinalImageLink(fs, base) == FinalImageLink(fs', base)
    ensures FinalImageLink(fs, base).value.route == ImageProxy
    ensures Get(FinalImageLink(fs, base).value.query, "url") == Some(fs.image)
    ensures Get(FinalImageLink(fs, base).value.query, "delay") == Some(ImageDelayText(fs))
  {
  }

  /** Without an `image`, a generator link exactly when a size, width or
      height is given; it holds `delay`, then the size alone when it is not
      "custom", or else the width and height that are given. */
  lemma GeneratorParams(fs: Fields, base: string)
    requires fs.image == ""
    ensures FinalImageLink(fs, base).Some? <==> fs.imageSize != "" || fs.imageWidth != "" || fs.imageHeight != ""
    ensures FinalImageLink(fs, base).Some? ==>
      var q := FinalImageLink(fs, base).value.query;
      var preset := fs.imageSize != "" && fs.imageSize != "custom";
      && FinalImageLink(fs, base).value == Endpoint(base, GenerateImage, q)
      && Get(q, "delay") == Some(ImageDelayText(fs))
      && (Has(q, "size") <==> preset)
      && (Has(q, "width") <==> !preset && fs.imageWidth != "")
      && (Has(q, "height") <==> !preset && fs.imageHeight != "")
  {
    GeneratorQueryParams(ImageDelayText(fs), fs.imageSize, fs.imageWidth, fs.imageHeight);
  }

  /** A size of "custom" with no width or height still gives a generator
      link, one with only the delay, which draws the default 1200 × 630. */
  lemma CustomAloneGivesLink(fs: Fields, base: string)
    requires fs.image == "" && fs.imageSize == "custom" && fs.imageWidth == "" && fs.imageHeight == ""
    ensures FinalImageLink(fs, base) == Some(Endpoint(base, GenerateImage, [("delay", ImageDelayText(fs))]))
  {
    var d := ImageDelayText(fs);
    assert Opt("width", "") + Opt("height", "") == [];
    assert GeneratorQuery(d, "custom", "", "") == [("delay", d)] + [] == [("delay", d)];
  }
}
