/** The single-image simulator component (app/og-simulator-client.tsx):
    besides an image list like the multi-image component's, it keeps one
    image in legacy fields (a url, or a size, width and height to generate)
    from which it builds the test URL, the image link and the meta tags.
    `generateImage`, which the component reads but never declares, is an
    input here. Delays are held as milliseconds; the component's delays are
    numbers of seconds. */
module ClientOld {
  import opened Js
  import opened Urls
  import opened Images

  /** The legacy fields of the form. */
  datatype Form = Form(
    title: string,
    description: string,
    siteName: string,
    delay: Num,
    imageUrl: string,
    imageDelay: Num,
    imageWidth: string,
    imageHeight: string,
    imageSize: string,
    generateImage: bool)

  /** `imageSize && imageSize !== 'custom'`. */
  predicate Preset(f: Form) {
    f.imageSize != "" && f.imageSize != "custom"
  }

  /** The pair (k, v) when `c` holds, else nothing. */
  function When(c: bool, k: string, v: string): Query {
    if c then [(k, v)] else []
  }

  /** The parameters `generateTestURL` and `updateURL` write, in the order
      they set them: each text that is not empty, each delay that is
      positive (in seconds), and, only when there is no image url and
      generation is on, the size when it is a preset, or else the width and
      height that are not empty. */
  function TestQuery(f: Form): (q: Query)
    ensures |q| <= |Names|
    ensures forall i :: 0 <= i < |q| ==> q[i].0 in Names
  {
    PiecesAtMostOne(f);
    FlattenNamed(Pieces(f), Names);
    Flatten(Pieces(f))
  }

  /** Each piece is nothing or the one parameter of its name. */
  lemma PiecesAtMostOne(f: Form)
    ensures forall i :: 0 <= i < |Names| ==> NamedPiece(Pieces(f)[i], Names[i])
  {
    var ps := Pieces(f);
    assert NamedPiece(ps[0], "title") && NamedPiece(ps[1], "description");
    assert NamedPiece(ps[2], "image") && NamedPiece(ps[3], "site_name");
    assert NamedPiece(ps[4], "delay") && NamedPiece(ps[5], "image_delay");
    assert NamedPiece(ps[6], "image_size") && NamedPiece(ps[7], "image_width");
    assert NamedPiece(ps[8], "image_height");
  }

  /** The names of the test parameters, in the order they are set. */
  const Names: seq<string> := ["title", "description", "image", "site_name", "delay", "image_delay",
                               "image_size", "image_width", "image_height"]

  /** The test parameter of each name, or nothing. */
  function Pieces(f: Form): (ps: seq<Query>)
    ensures |ps| == |Names|
  {
    var dims := f.imageUrl == "" && f.generateImage;
    [ When(f.title != "", "title", f.title),
      When(f.description != "", "description", f.description),
      When(f.imageUrl != "", "image", f.imageUrl),
      When(f.siteName != "", "site_name", f.siteName),
      When(Positive(f.delay), "delay", ShowSecondsNum(f.delay)),
      When(Positive(f.imageDelay), "image_delay", ShowSecondsNum(f.imageDelay)),
      When(dims && Preset(f), "image_size", f.imageSize),
      When(dims && f.imageWidth != "" && !Preset(f), "image_width", f.imageWidth),
      When(dims && f.imageHeight != "" && !Preset(f), "image_height", f.imageHeight) ]
  }

  /** A piece is nothing, or one parameter of the given name. */
  predicate NamedPiece(p: Query, name: string) {
    p == [] || (|p| == 1 && p[0].0 == name)
  }

  /** The pieces one after another. */
  function Flatten(ps: seq<Query>): Query {
    if ps == [] then [] else ps[0] + Flatten(ps[1..])
  }

  /** Flattening pieces of at most one parameter each, named from `names`,
      gives at most one parameter per piece, each named from `names`. */
  lemma {:induction false} FlattenNamed(ps: seq<Query>, names: seq<string>)
    requires |ps| == |names|
    requires forall i :: 0 <= i < |ps| ==> NamedPiece(ps[i], names[i])
    ensures |Flatten(ps)| <= |ps|
    ensures forall j :: 0 <= j < |Flatten(ps)| ==> Flatten(ps)[j].0 in names
  {
    if ps != [] {
      assert NamedPiece(ps[0], names[0]);
      assert forall i :: 0 <= i < |ps[1..]| ==> NamedPiece(ps[1..][i], names[1..][i]) by {
        forall i | 0 <= i < |ps[1..]| ensures NamedPiece(ps[1..][i], names[1..][i]) {
          assert ps[1..][i] == ps[i + 1] && names[1..][i] == names[i + 1];
        }
      }
      FlattenNamed(ps[1..], names[1..]);
      var rest := Flatten(ps[1..]);
      forall j | 0 <= j < |Flatten(ps)| ensures Flatten(ps)[j].0 in names {
        if j < |ps[0]| {
          assert Flatten(ps)[j] == ps[0][0];
        } else {
          assert Flatten(ps)[j] == rest[j - |ps[0]|];
          assert rest[j - |ps[0]|].0 in names[1..];
        }
      }
    }
  }

  /** The form the load effect makes of query parameters; `generateImage`
      is not read from them and stays as it was. */
  function LoadedForm(sp: Query, generateImage: bool): (f: Form)
    ensures f.title != "" && f.description != "" && f.siteName != ""
    ensures f.generateImage == generateImage
  {
    Form(ValueOr(sp, "title", "Test Page Title"),
         ValueOr(sp, "description", "Test page description for OG tag generation"),
         ValueOr(sp, "site_name", "Test Site"),
         Times(ParseOr(Get(sp, "delay"), 0), 1000),
         ValueOr(sp, "image", ""),
         Times(ParseOr(Get(sp, "image_delay"), 0), 1000),
         ValueOr(sp, "image_width", ""),
         ValueOr(sp, "image_height", ""),
         ValueOr(sp, "image_size", ""),
         generateImage)
  }

  /** `getLegacyImageUrl(absolute)`: any image url goes through the proxy,
      even with no delay; else a preset size, a width or a height gives a
      generator link. */
  function LegacyImageLink(f: Form, base: string): (r: Option<Link>)
    ensures r.Some? <==> f.imageUrl != "" || Preset(f) || f.imageWidth != "" || f.imageHeight != ""
    ensures r.Some? ==> r.value.Endpoint? && r.value.base == base
    ensures r.Some? ==> (r.value.route == ImageProxy <==> f.imageUrl != "")
  {
    if f.imageUrl != "" then
      Some(Endpoint(base, ImageProxy, ProxyQuery(f.imageUrl, ShowNum(f.imageDelay))))
    else if Preset(f) || f.imageWidth != "" || f.imageHeight != "" then
      Some(Endpoint(base, GenerateImage,
                    GeneratorQuery(ShowNum(f.imageDelay), f.imageSize, f.imageWidth, f.imageHeight)))
    else None
  }

  /** `getImageUrl(absolute)`, the helper the meta tags use: as the legacy
      link, but a generator link only when generation is on. */
  function CurrentImageLink(f: Form, base: string): (r: Option<Link>)
    ensures r.Some? <==> f.imageUrl != "" || (f.generateImage && (Preset(f) || f.imageWidth != "" || f.imageHeight != ""))
    ensures r.Some? ==> r.value.Endpoint? && r.value.base == base
    ensures r.Some? ==> (r.value.route == ImageProxy <==> f.imageUrl != "")
  {
    if f.imageUrl != "" then
      Some(Endpoint(base, ImageProxy, ProxyQuery(f.imageUrl, ShowNum(f.imageDelay))))
    else if f.generateImage && (Preset(f) || f.imageWidth != "" || f.imageHeight != "") then
      Some(Endpoint(base, GenerateImage,
                    GeneratorQuery(ShowNum(f.imageDelay), f.imageSize, f.imageWidth, f.imageHeight)))
    else None
  }

  /** A meta tag: its attributes in insertion order. */
  type Tag = seq<(string, string)>

  function Property(p: string, content: string): Tag {
    [("property", p), ("content", content)]
  }

  function Named(n: string, content: string): Tag {
    [("name", n), ("content", content)]
  }

  /** `generateMetaTags()`: the Open Graph and Twitter tags, with the image
      tags only when there is an image link (absolute, from `origin`). */
  function MetaTags(f: Form, origin: Option<string>): (tags: seq<Tag>)
    ensures |tags| == if CurrentImageLink(f, BaseUrl(true, origin)).Some? then 9 else 7
    ensures tags[0] == Property("og:title", f.title)
  {
    var link := CurrentImageLink(f, BaseUrl(true, origin));
    [ Property("og:title", f.title), Property("og:description", f.description),
      Property("og:type", "website"), Property("og:site_name", f.siteName) ]
    + (if link.Some? then [Property("og:image", LinkText(link.value))] else [])
    + [ Named("twitter:card", "summary_large_image"), Named("twitter:title", f.title),
        Named("twitter:description", f.description) ]
    + (if link.Some? then [Named("twitter:image", LinkText(link.value))] else [])
  }

  /** `key="value"` for each attribute, joined by spaces; values are
      inserted as they are, without escaping. */
  function Attributes(t: Tag): (r: string)
    ensures r == "" <==> t == []
    ensures t != [] ==> |r| >= |t[0].0| + 2 && r[..|t[0].0| + 2] == t[0].0 + "=\""
  {
    if t == [] then ""
    else t[0].0 + "=\"" + t[0].1 + "\"" + (if |t| == 1 then "" else " " + Attributes(t[1..]))
  }

  /** One `<meta .../>` element. */
  function Render(t: Tag): (r: string)
    ensures |r| >= 9 && r[..6] == "<meta " && r[|r| - 3..] == " />"
  {
    "<meta " + Attributes(t) + " />"
  }

  /** The tags as `<meta .../>` elements joined by line breaks. */
  function Serialize(tags: seq<Tag>): (r: string)
    ensures r == "" <==> tags == []
  {
    if tags == [] then ""
    else Render(tags[0]) + (if |tags| == 1 then "" else "\n" + Serialize(tags[1..]))
  }

  /** Whether some tag starts with the attribute `a`. */
  predicate HasTag(tags: seq<Tag>, a: (string, string)) {
    exists i :: 0 <= i < |tags| && tags[i] != [] && tags[i][0] == a
  }

  class Simulator {
    var title: string
    var description: string
    var siteName: string
    var delay: Num
    var images: seq<ImageConfig>
    var imageUrl: string
    var imageDelay: Num
    var imageWidth: string
    var imageHeight: string
    var imageSize: string
    var generateImage: bool
    /** The query of the address `updateURL` last pushed. */
    var address: Query

    constructor(generateImage: bool)
      ensures Snapshot() == Form("", "", "", Int(0), "", Int(0), "", "", "", generateImage)
      ensures images == [] && address == []
    {
      title, description, siteName := "", "", "";
      delay, imageDelay := Int(0), Int(0);
      images := [];
      imageUrl, imageWidth, imageHeight, imageSize := "", "", "", "";
      this.generateImage := generateImage;
      address := [];
    }

    function Snapshot(): Form
      reads this
    {
      Form(title, description, siteName, delay, imageUrl, imageDelay,
           imageWidth, imageHeight, imageSize, generateImage)
    }

    /** The effect run when the query parameters change: the form fields
        first, then the image list, replaced by the legacy entry when the
        parameters describe one. */
    method LoadParams(sp: Query)
      modifies this
      ensures Snapshot() == LoadedForm(sp, old(generateImage))
      ensures images == if LegacyImage(sp).Some? then [LegacyImage(sp).value] else old(images)
      ensures address == old(address)
    {
      LoadFields(sp);
      var legacy := LegacyImage(sp);
      if legacy.Some? {
        images := [legacy.value];
      }
    }

    /** The setters of the form fields, each from its parameter or a default. */
    method LoadFields(sp: Query)
      modifies this
      ensures Snapshot() == LoadedForm(sp, old(generateImage))
      ensures images == old(images) && address == old(address)
    {
      Store(LoadedForm(sp, generateImage));
    }

    method Store(f: Form)
      modifies this
      ensures Snapshot() == f
      ensures images == old(images) && address == old(address)
    {
      title, description, siteName, delay := f.title, f.description, f.siteName, f.delay;
      imageUrl, imageDelay, imageWidth, imageHeight := f.imageUrl, f.imageDelay, f.imageWidth, f.imageHeight;
      imageSize, generateImage := f.imageSize, f.generateImage;
    }

    method AddImage(now: int)
      modifies this`images
      ensures images == old(images) + [NewImage(now)]
    {
      images := images + [NewImage(now)];
    }

    method UpdateImage(id: string, p: Patch)
      modifies this`images
      ensures images == Updated(old(images), id, p)
    {
      images := Updated(images, id, p);
    }

    method RemoveImage(id: string)
      modifies this`images
      ensures images == Removed(old(images), id)
    {
      images := Removed(images, id);
    }

    /** The parameters built one `params.set` after another. */
    method BuildTestQuery() returns (q: Query)
      ensures q == TestQuery(Snapshot())
    {
      var f := Snapshot();
      ghost var ps := Pieces(f);
      PiecesNamed(f);
      q := BuildTexts();
      q := BuildDelays(q);
      if imageUrl == "" && generateImage {
        q := Put(q, ps, 6, Preset(f), "image_size", imageSize);
        q := Put(q, ps, 7, imageWidth != "" && !Preset(f), "image_width", imageWidth);
        q := Put(q, ps, 8, imageHeight != "" && !Preset(f), "image_height", imageHeight);
      } else {
        q := Put(q, ps, 6, false, "image_size", imageSize);
        q := Put(q, ps, 7, false, "image_width", imageWidth);
        q := Put(q, ps, 8, false, "image_height", imageHeight);
      }
      assert ps[..9] == ps;
    }

    /** The delays, in seconds, after the texts. */
    method BuildDelays(texts: Query) returns (q: Query)
      requires texts == Flatten(Pieces(Snapshot())[..4])
      ensures q == Flatten(Pieces(Snapshot())[..6])
    {
      ghost var ps := Pieces(Snapshot());
      PiecesNamed(Snapshot());
      q := Put(texts, ps, 4, Positive(delay), "delay", ShowSecondsNum(delay));
      q := Put(q, ps, 5, Positive(imageDelay), "image_delay", ShowSecondsNum(imageDelay));
    }

    /** The first four parameters: the texts. */
    method BuildTexts() returns (q: Query)
      ensures q == Flatten(Pieces(Snapshot())[..4])
    {
      ghost var ps := Pieces(Snapshot());
      PiecesNamed(Snapshot());
      q := Put([], ps, 0, title != "", "title", title);
      q := Put(q, ps, 1, description != "", "description", description);
      q := Put(q, ps, 2, imageUrl != "", "image", imageUrl);
      q := Put(q, ps, 3, siteName != "", "site_name", siteName);
    }

    /** `generateTestURL()`: the home page of the origin, or of
        `http://localhost:3000` when there is no window, with the test
        parameters. */
    method GenerateTestUrl(origin: Option<string>) returns (url: Link)
      ensures url == Endpoint(if origin.Some? then origin.value else "http://localhost:3000", Home,
                              TestQuery(Snapshot()))
    {
      var q := BuildTestQuery();
      var base := if origin.Some? then origin.value else "http://localhost:3000";
      url := Endpoint(base, Home, q);
    }

    /** `updateURL()`: pushes the same parameters `generateTestURL` writes. */
    method UpdateUrl()
      modifies this`address
      ensures address == TestQuery(Snapshot())
    {
      address := BuildTestQuery();
    }
  }

  /** Pieces whose pairs carry the name of their position. */
  predicate NamedPieces(ps: seq<Query>) {
    && |ps| == |Names|
    && forall j, m :: 0 <= j < |ps| && 0 <= m < |ps[j]| ==> ps[j][m].0 == Names[j]
  }

  lemma PiecesNamed(f: Form)
    ensures NamedPieces(Pieces(f))
  {
  }

  lemma NamesDistinct()
    ensures forall j, m :: 0 <= j < m < |Names| ==> Names[j] != Names[m]
  {
  }

  /** `if (c) params.set(k, v)`, the `i`th of the pieces `ps`, on the
      parameters the pieces before it make: the name is new, so the pair is
      appended. */
  method Put(q: Query, ghost ps: seq<Query>, ghost i: nat, c: bool, k: string, v: string)
    returns (q': Query)
    requires NamedPieces(ps) && i < |ps| && k == Names[i]
    requires q == Flatten(ps[..i]) && ps[i] == When(c, k, v)
    ensures q' == Flatten(ps[..i + 1])
  {
    FlattenSnoc(ps, i);
    q' := q;
    if c {
      NamesDistinct();
      AbsentFrom(ps[..i], Names[..i], k);
      q' := Set(q, k, v);
    }
  }

  /** One more piece flattened is one more piece appended. */
  lemma {:induction false} FlattenSnoc(ps: seq<Query>, i: nat)
    requires i < |ps|
    ensures Flatten(ps[..i + 1]) == Flatten(ps[..i]) + ps[i]
  {
    if i == 0 {
      assert ps[..1][1..] == [];
    } else {
      var t := ps[1..];
      assert ps[..i + 1][1..] == t[..i];
      assert ps[..i][1..] == t[..i - 1];
      FlattenSnoc(t, i - 1);
    }
  }

  // ---------------------------------------------------------------------
  // Properties

  /** In pieces whose names differ, the value of a piece's name is the
      value of that piece. */
  lemma {:induction false} GetOfPieces(ps: seq<Query>, names: seq<string>, i: int)
    requires |ps| == |names| && 0 <= i < |ps|
    requires forall j, m :: 0 <= j < |ps| && 0 <= m < |ps[j]| ==> ps[j][m].0 == names[j]
    requires forall j, m :: 0 <= j < m < |names| ==> names[j] != names[m]
    ensures Get(Flatten(ps), names[i]) == Get(ps[i], names[i])
    decreases |ps|
  {
    GetConcat(ps[0], Flatten(ps[1..]), names[i]);
    if i == 0 {
      if !Has(ps[0], names[0]) {
        AbsentFrom(ps[1..], names[1..], names[0]);
      }
    } else {
      assert !Has(ps[0], names[i]);
      GetOfPieces(ps[1..], names[1..], i - 1);
    }
  }

  lemma {:induction false} AbsentFrom(ps: seq<Query>, names: seq<string>, k: string)
    requires |ps| == |names|
    requires forall j, m :: 0 <= j < |ps| && 0 <= m < |ps[j]| ==> ps[j][m].0 == names[j]
    requires forall j :: 0 <= j < |names| ==> names[j] != k
    ensures !Has(Flatten(ps), k)
    decreases |ps|
  {
    if ps != [] {
      AbsentFrom(ps[1..], names[1..], k);
      GetConcat(ps[0], Flatten(ps[1..]), k);
      assert !Has(ps[0], k);
    }
  }

  /** The value of the `i`th name in the test parameters is that of its piece. */
  lemma TestQueryGet(f: Form, i: nat)
    requires i < |Names|
    ensures Get(TestQuery(f), Names[i]) == Get(Pieces(f)[i], Names[i])
  {
    PiecesNamed(f);
    NamesDistinct();
    GetOfPieces(Pieces(f), Names, i);
  }

  lemma GetWhen(c: bool, k: string, v: string)
    ensures Get(When(c, k, v), k) == if c then Some(v) else None
  {
  }

  /** Which parameters the test URL holds and with what values. */
  lemma TestQueryParams(f: Form)
    ensures var q := TestQuery(f);
      && Get(q, "title") == (if f.title != "" then Some(f.title) else None)
      && Get(q, "description") == (if f.description != "" then Some(f.description) else None)
      && Get(q, "image") == (if f.imageUrl != "" then Some(f.imageUrl) else None)
      && Get(q, "site_name") == (if f.siteName != "" then Some(f.siteName) else None)
      && Get(q, "delay") == (if Positive(f.delay) then Some(ShowSecondsNum(f.delay)) else None)
      && Get(q, "image_delay") == (if Positive(f.imageDelay) then Some(ShowSecondsNum(f.imageDelay)) else None)
  {
    TestQueryGet(f, 0);
    TestQueryGet(f, 1);
    TestQueryGet(f, 2);
    TestQueryGet(f, 3);
    TestQueryGet(f, 4);
    TestQueryGet(f, 5);
  }

  /** Which image dimension parameters the test URL holds: only with no
      image url and generation on, the size when it is a preset, or else
      the width and height that are not empty. */
  lemma TestQueryDimensions(f: Form)
    ensures var q, dims := TestQuery(f), f.imageUrl == "" && f.generateImage;
      && Get(q, "image_size") == (if dims && Preset(f) then Some(f.imageSize) else None)
      && Get(q, "image_width") == (if dims && f.imageWidth != "" && !Preset(f) then Some(f.imageWidth) else None)
      && Get(q, "image_height") == (if dims && f.imageHeight != "" && !Preset(f) then Some(f.imageHeight) else None)
  {
    TestQueryGet(f, 6);
    TestQueryGet(f, 7);
    TestQueryGet(f, 8);
  }

  // ---------------------------------------------------------------------
  // Reloading the test URL

  /** What loading the test URL's parameters gives back: every text that
      was empty becomes its default, a positive delay loses its fraction of
      a second (parseInt of "1.5" is 1) and any other becomes 0, and of the
      image dimensions only those the test URL wrote survive. */
  lemma {:induction false} ReloadedForm(f: Form, generateImage: bool)
    ensures var dims := f.imageUrl == "" && f.generateImage;
      LoadedForm(TestQuery(f), generateImage) == Form(
        if f.title != "" then f.title else "Test Page Title",
        if f.description != "" then f.description else "Test page description for OG tag generation",
        if f.siteName != "" then f.siteName else "Test Site",
        WholePart(f.delay),
        f.imageUrl,
        WholePart(f.imageDelay),
        if dims && f.imageWidth != "" && !Preset(f) then f.imageWidth else "",
        if dims && f.imageHeight != "" && !Preset(f) then f.imageHeight else "",
        if dims && Preset(f) then f.imageSize else "",
        generateImage)
  {
    var q := TestQuery(f);
    TestQueryParams(f);
    TestQueryDimensions(f);
    ReloadedDelay(q, "delay", f.delay);
    ReloadedDelay(q, "image_delay", f.imageDelay);
  }

  /** A delay after the round trip through its text: the whole seconds of a
      positive delay, and 0 otherwise. */
  function WholePart(n: Num): (r: Num)
    ensures Positive(n) ==> r == Int(n.i - n.i % 1000)
    ensures !Positive(n) ==> r == Int(0)
  {
    if Positive(n) then Int(n.i / 1000 * 1000) else Int(0)
  }

  /** A delay written as seconds when positive and read back with parseInt. */
  lemma ReloadedDelay(q: Query, k: string, n: Num)
    requires Get(q, k) == (if Positive(n) then Some(ShowSecondsNum(n)) else None)
    ensures Times(ParseOr(Get(q, k), 0), 1000) == WholePart(n)
  {
    if Positive(n) {
      ParseShowSeconds(n.i);
      assert ShowSeconds(n.i) != "";
    }
  }

  /** A delay that survives the round trip: a whole number of seconds, not negative. */
  predicate WholeSeconds(n: Num) {
    n.Int? && n.i >= 0 && n.i % 1000 == 0
  }

  /** The forms the test URL reproduces when it is loaded: texts that are
      not empty, delays of whole seconds, and no image field the test URL
      leaves out. */
  predicate Reproducible(f: Form) {
    var dims := f.imageUrl == "" && f.generateImage;
    && f.title != "" && f.description != "" && f.siteName != ""
    && WholeSeconds(f.delay) && WholeSeconds(f.imageDelay)
    && (f.imageWidth != "" ==> dims && !Preset(f))
    && (f.imageHeight != "" ==> dims && !Preset(f))
    && (f.imageSize != "" ==> dims && Preset(f))
  }

  /** Loading the test URL gives the form back exactly when the form is
      reproducible; in particular a delay of 1.5 seconds comes back as 1. */
  lemma TestQueryRoundTrip(f: Form)
    ensures LoadedForm(TestQuery(f), f.generateImage) == f <==> Reproducible(f)
  {
    ReloadedForm(f, f.generateImage);
  }

  /** The half second the slider allows is lost: 1.5 seconds come back as 1. */
  lemma HalfSecondLost(f: Form)
    requires f.delay == Int(1500)
    ensures LoadedForm(TestQuery(f), f.generateImage).delay == Int(1000)
  {
    ReloadedForm(f, f.generateImage);
  }

  // ---------------------------------------------------------------------
  // The image links of the legacy fields

  /** An image url wins in both helpers and always goes through the proxy,
      with the image delay in milliseconds, even when that delay is 0. */
  lemma UrlTakesPrecedence(f: Form, base: string)
    requires f.imageUrl != ""
    ensures var proxy := Some(Endpoint(base, ImageProxy, ProxyQuery(f.imageUrl, ShowNum(f.imageDelay))));
      LegacyImageLink(f, base) == CurrentImageLink(f, base) == proxy
  {
  }

  /** Unlike the per-entry helper, which links an external image with no
      delay directly. */
  lemma LegacyProxiesWithoutDelay(f: Form, base: string)
    requires f.imageUrl != "" && f.imageDelay == Int(0)
    ensures var entry := ImageConfig("legacy", External, Some(f.imageUrl), None, None, None, f.imageDelay);
      && ImageLink(entry, base) == Some(Direct(f.imageUrl))
      && LegacyImageLink(f, base).value.Endpoint?
      && LegacyImageLink(f, base).value.route == ImageProxy
  {
  }

  /** The helper the meta tags use agrees with the legacy helper when
      generation is on; when it is off, only an image url gives a link. */
  lemma CurrentMatchesLegacy(f: Form, base: string)
    ensures f.generateImage ==> CurrentImageLink(f, base) == LegacyImageLink(f, base)
    ensures !f.generateImage ==> (CurrentImageLink(f, base).Some? <==> f.imageUrl != "")
  {
  }

  /** With no image url, a generator link exactly when generation is on and
      there is a preset size, a width or a height; its query holds `delay`
      in milliseconds, then the preset size alone, or else the width and
      height that are set. */
  lemma CurrentGeneratorLink(f: Form, base: string)
    requires f.imageUrl == ""
    ensures CurrentImageLink(f, base).Some? <==>
      f.generateImage && (Preset(f) || f.imageWidth != "" || f.imageHeight != "")
    ensures CurrentImageLink(f, base).Some? ==>
      var q := CurrentImageLink(f, base).value.query;
      && CurrentImageLink(f, base).value == Endpoint(base, GenerateImage, q)
      && Get(q, "delay") == Some(ShowNum(f.imageDelay))
      && (Has(q, "size") <==> Preset(f))
      && (Has(q, "width") <==> !Preset(f) && f.imageWidth != "")
      && (Has(q, "height") <==> !Preset(f) && f.imageHeight != "")
      && (Preset(f) ==> Get(q, "size") == Some(f.imageSize))
  {
    GeneratorQueryParams(ShowNum(f.imageDelay), f.imageSize, f.imageWidth, f.imageHeight);
  }

  // ---------------------------------------------------------------------
  // The meta tags

  /** Nine tags with an image link and seven without; the Open Graph and
      the Twitter image tags are there together or not at all, and carry
      the link. */
  lemma MetaTagsShape(f: Form, origin: Option<string>)
    ensures var link, tags := CurrentImageLink(f, BaseUrl(true, origin)), MetaTags(f, origin);
      && |tags| == (if link.Some? then 9 else 7)
      && (HasTag(tags, ("property", "og:image")) <==> link.Some?)
      && (HasTag(tags, ("name", "twitter:image")) <==> link.Some?)
      && (link.Some? ==> tags[4] == Property("og:image", LinkText(link.value))
                         && tags[8] == Named("twitter:image", LinkText(link.value)))
  {
    var link, tags := CurrentImageLink(f, BaseUrl(true, origin)), MetaTags(f, origin);
    if link.Some? {
      assert tags[4][0] == ("property", "og:image");
      assert tags[8][0] == ("name", "twitter:image");
    } else {
      assert forall i :: 0 <= i < |tags| ==> tags[i][0] != ("property", "og:image") && tags[i][0] != ("name", "twitter:image");
    }
  }

  /** The serialiser joins: the lines of two lists, one after the other. */
  lemma {:induction false} SerializeConcat(a: seq<Tag>, b: seq<Tag>)
    requires a != [] && b != []
    ensures Serialize(a + b) == Serialize(a) + "\n" + Serialize(b)
  {
    if |a| == 1 {
      assert (a + b)[1..] == b;
    } else {
      assert (a + b)[1..] == a[1..] + b;
      SerializeConcat(a[1..], b);
    }
  }

  /** One tag is one `<meta .../>` element with its attributes in order,
      each value between double quotes exactly as given. */
  lemma RenderPair(k: string, v: string, k': string, v': string)
    ensures Render([(k, v), (k', v')]) == "<meta " + k + "=\"" + v + "\" " + k' + "=\"" + v' + "\" />"
  {
    var t := [(k, v), (k', v')];
    assert t[1..] == [(k', v')];
    assert Attributes([(k', v')]) == k' + "=\"" + v' + "\"";
    assert Attributes(t) == k + "=\"" + v + "\"" + " " + (k' + "=\"" + v' + "\"");
  }

  /** The number of line breaks in a text. */
  function Breaks(s: string): nat {
    if s == [] then 0 else (if s[0] == '\n' then 1 else 0) + Breaks(s[1..])
  }

  lemma {:induction false} BreaksConcat(s: string, t: string)
    ensures Breaks(s + t) == Breaks(s) + Breaks(t)
  {
    if s == [] {
      assert s + t == t;
    } else {
      assert (s + t)[1..] == s[1..] + t;
      BreaksConcat(s[1..], t);
    }
  }

  /** No line break in any name or value of a tag. */
  predicate OneLine(t: Tag) {
    forall i :: 0 <= i < |t| ==> Breaks(t[i].0) == 0 && Breaks(t[i].1) == 0
  }

  lemma {:induction false} AttributesOneLine(t: Tag)
    requires OneLine(t)
    ensures Breaks(Attributes(t)) == 0
  {
    if t != [] {
      assert OneLine(t[1..]);
      AttributesOneLine(t[1..]);
      var tail := if |t| == 1 then "" else " " + Attributes(t[1..]);
      BreaksConcat(t[0].0, "=\"");
      BreaksConcat(t[0].0 + "=\"", t[0].1);
      BreaksConcat(t[0].0 + "=\"" + t[0].1, "\"");
      BreaksConcat(t[0].0 + "=\"" + t[0].1 + "\"", tail);
      if |t| > 1 {
        BreaksConcat(" ", Attributes(t[1..]));
      }
    }
  }

  /** When no name or value holds a line break, the serialised tags are
      one line per tag. */
  lemma {:induction false} SerializeLines(tags: seq<Tag>)
    requires tags != []
    requires forall i :: 0 <= i < |tags| ==> OneLine(tags[i])
    ensures Breaks(Serialize(tags)) == |tags| - 1
  {
    AttributesOneLine(tags[0]);
    BreaksConcat("<meta ", Attributes(tags[0]));
    BreaksConcat("<meta " + Attributes(tags[0]), " />");
    if |tags| > 1 {
      SerializeLines(tags[1..]);
      BreaksConcat("\n", Serialize(tags[1..]));
      BreaksConcat(Render(tags[0]), "\n" + Serialize(tags[1..]));
    } else {
      assert Render(tags[0]) + "" == Render(tags[0]);
    }
  }
}
