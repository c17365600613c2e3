/** The image list both simulator components keep: its entries, the
    updaters that replace it, the entry read from legacy query parameters,
    and the link each entry's preview and meta tags point to. An entry's
    delay is a number of seconds in the components; here it is held exactly,
    as that many thousandths, so a delay of 0.5 s is `Int(500)`. */
module Images {
  import opened Js
  import opened Urls

  datatype Kind = Generate | External

  /** `ImageConfig`: optional fields are `None` when undefined. */
  datatype ImageConfig = ImageConfig(
    id: string,
    kind: Kind,
    url: Option<string>,
    width: Option<string>,
    height: Option<string>,
    size: Option<string>,
    delay: Num)

  /** `Partial<ImageConfig>`: `None` is a key the object does not have;
      `Some(None)` is a key present with the value `undefined`, which the
      spread still copies. */
  datatype Patch = Patch(
    id: Option<string>,
    kind: Option<Kind>,
    url: Option<Option<string>>,
    width: Option<Option<string>>,
    height: Option<Option<string>>,
    size: Option<Option<string>>,
    delay: Option<Num>)

  function Pick<T>(p: Option<T>, v: T): T {
    if p.Some? then p.value else v
  }

  /** `{ ...img, ...updates }`: every key the patch has wins. */
  function Merge(img: ImageConfig, p: Patch): (r: ImageConfig)
    ensures r.id == if p.id.Some? then p.id.value else img.id
    ensures r.kind == if p.kind.Some? then p.kind.value else img.kind
    ensures r.url == if p.url.Some? then p.url.value else img.url
    ensures r.width == if p.width.Some? then p.width.value else img.width
    ensures r.height == if p.height.Some? then p.height.value else img.height
    ensures r.size == if p.size.Some? then p.size.value else img.size
    ensures r.delay == if p.delay.Some? then p.delay.value else img.delay
  {
    ImageConfig(Pick(p.id, img.id), Pick(p.kind, img.kind), Pick(p.url, img.url),
                Pick(p.width, img.width), Pick(p.height, img.height),
                Pick(p.size, img.size), Pick(p.delay, img.delay))
  }

  /** The entry `addImage` appends at time `now` (the value of `Date.now()`):
      id `img-{now}`, a generated image with no delay and no fields set. */
  function NewImage(now: int): ImageConfig {
    ImageConfig("img-" + ShowInt(now), Generate, None, None, None, None, Int(0))
  }

  /** `prev.map(img => img.id === id ? { ...img, ...updates } : img)`. */
  function Updated(images: seq<ImageConfig>, id: string, p: Patch): (r: seq<ImageConfig>)
    ensures |r| == |images|
  {
    if images == [] then []
    else [if images[0].id == id then Merge(images[0], p) else images[0]] + Updated(images[1..], id, p)
  }

  /** `prev.filter(img => img.id !== id)`. */
  function Removed(images: seq<ImageConfig>, id: string): (r: seq<ImageConfig>)
    ensures |r| <= |images|
  {
    if images == [] then []
    else (if images[0].id == id then [] else [images[0]]) + Removed(images[1..], id)
  }

  /** The update the type selector sends: the new type, and `undefined` for
      the fields of the other type (width, height and size when switching to
      an external image, the url when switching to a generated one). */
  function SwitchPatch(kind: Kind): Patch {
    match kind
    case External => Patch(None, Some(External), None, Some(None), Some(None), Some(None), None)
    case Generate => Patch(None, Some(Generate), Some(None), None, None, None, None)
  }

  /** `s || undefined`. */
  function NonEmpty(o: Option<string>): (r: Option<string>)
    ensures r.Some? <==> Truthy(o)
    ensures r.Some? ==> r == o
  {
    if Truthy(o) then o else None
  }

  /** The entry made from the parameters of the single-image links: only
      when `image` or one of `image_width`, `image_height`, `image_size` is
      given and not empty. Its delay is `parseInt(image_delay)` times
      `scale` thousandths of a second. */
  function LegacyEntry(sp: Query, scale: int): Option<ImageConfig> {
    var hasImageUrl := Truthy(Get(sp, "image"));
    var hasGenerationParams :=
      Truthy(Get(sp, "image_width")) || Truthy(Get(sp, "image_height")) || Truthy(Get(sp, "image_size"));
    if hasImageUrl || hasGenerationParams then
      Some(ImageConfig("legacy", if hasImageUrl then External else Generate,
                       NonEmpty(Get(sp, "image")), NonEmpty(Get(sp, "image_width")),
                       NonEmpty(Get(sp, "image_height")), NonEmpty(Get(sp, "image_size")),
                       Times(ParseOr(Get(sp, "image_delay"), 0), scale)))
    else None
  }

  /** The legacy entry as written: `parseInt(image_delay) / 1000` seconds,
      that is `image_delay` read as milliseconds. */
  function LegacyImage(sp: Query): (r: Option<ImageConfig>)
    ensures r.Some? ==> r.value.id == "legacy" && r.value.delay == ParseOr(Get(sp, "image_delay"), 0)
  {
    LegacyEntry(sp, 1)
  }

  /** The legacy entry with `image_delay` read as the number of seconds the
      single-image links write and the page reads. */
  function LegacyImageCorrected(sp: Query): (r: Option<ImageConfig>)
    ensures r.Some? <==> LegacyImage(sp).Some?
    ensures r.Some? ==> r.value == LegacyImage(sp).value.(delay := Times(LegacyImage(sp).value.delay, 1000))
  {
    LegacyEntry(sp, 1000)
  }

  /** `absolute && typeof window !== 'undefined' ? window.location.origin : ''`,
      with `origin` the page's origin when there is a window. */
  function BaseUrl(absolute: bool, origin: Option<string>): string {
    if absolute && origin.Some? then origin.value else ""
  }

  /** The proxy endpoint's query: the url and the delay text. */
  function ProxyQuery(url: string, delay: string): Query {
    [("url", url), ("delay", delay)]
  }

  /** `getImageUrl(image, absolute)`: an external image with a url goes
      through the proxy when its delay is positive (the delay written as
      `delay * 1000`, its number of milliseconds) and is the url itself
      otherwise; a generated image with a size, width or height is a
      generator link; anything else has no link. */
  function ImageLink(image: ImageConfig, base: string): (r: Option<Link>)
    ensures r.Some? <==> (image.kind == External && Truthy(image.url))
                         || (image.kind == Generate && (Truthy(image.size) || Truthy(image.width) || Truthy(image.height)))
    ensures r.Some? && r.value.Endpoint? ==> r.value.base == base
    ensures r.Some? && r.value.Direct? ==> image.kind == External && r.value.url == image.url.value
  {
    if image.kind == External && Truthy(image.url) then
      if Positive(image.delay) then
        Some(Endpoint(base, ImageProxy, ProxyQuery(image.url.value, ShowNum(image.delay))))
      else Some(Direct(image.url.value))
    else if image.kind == Generate && (Truthy(image.size) || Truthy(image.width) || Truthy(image.height)) then
      Some(Endpoint(base, GenerateImage,
                    GeneratorQuery(ShowNum(image.delay), OrEmpty(image.size),
                                   OrEmpty(image.width), OrEmpty(image.height))))
    else None
  }

  // ---------------------------------------------------------------------
  // Properties of the list updaters

  /** `updateImage` keeps the length and the order: entry `i` is entry `i`
      merged with the patch when its id matches, and entry `i` itself
      otherwise. */
  lemma {:induction false} UpdatedAt(images: seq<ImageConfig>, id: string, p: Patch, i: int)
    requires 0 <= i < |images|
    ensures Updated(images, id, p)[i] == if images[i].id == id then Merge(images[i], p) else images[i]
  {
    if i > 0 {
      UpdatedAt(images[1..], id, p, i - 1);
    }
  }

  /** An id no entry has leaves the list as it is. */
  lemma {:induction false} UpdatedAbsent(images: seq<ImageConfig>, id: string, p: Patch)
    requires forall k :: 0 <= k < |images| ==> images[k].id != id
    ensures Updated(images, id, p) == images
  {
    if images != [] {
      UpdatedAbsent(images[1..], id, p);
      assert images == [images[0]] + images[1..];
    }
  }

  /** `removeImage` is a filter: it works entry by entry and keeps the order. */
  lemma {:induction false} RemovedConcat(a: seq<ImageConfig>, b: seq<ImageConfig>, id: string)
    ensures Removed(a + b, id) == Removed(a, id) + Removed(b, id)
  {
    if a == [] {
      assert a + b == b;
    } else {
      assert (a + b)[0] == a[0];
      assert (a + b)[1..] == a[1..] + b;
      RemovedConcat(a[1..], b, id);
    }
  }

  /** Exactly the entries with that id go: every other entry stays. */
  lemma {:induction false} RemovedMembers(images: seq<ImageConfig>, id: string, x: ImageConfig)
    ensures x in Removed(images, id) <==> x in images && x.id != id
  {
    if images != [] {
      RemovedMembers(images[1..], id, x);
      assert images == [images[0]] + images[1..];
    }
  }

  /** Removing twice removes nothing more. */
  lemma {:induction false} RemovedTwice(images: seq<ImageConfig>, id: string)
    ensures Removed(Removed(images, id), id) == Removed(images, id)
  {
    if images != [] {
      RemovedTwice(images[1..], id);
      var head := if images[0].id == id then [] else [images[0]];
      RemovedConcat(head, Removed(images[1..], id), id);
    }
  }

  /** Removing an id no entry has removes nothing. */
  lemma {:induction false} RemovedAbsent(images: seq<ImageConfig>, id: string)
    requires forall k :: 0 <= k < |images| ==> images[k].id != id
    ensures Removed(images, id) == images
  {
    if images != [] {
      RemovedAbsent(images[1..], id);
      assert images == [images[0]] + images[1..];
    }
  }

  /** Images added at different times have different ids. */
  lemma NewImageIds(now: int, now': int)
    requires now != now'
    ensures NewImage(now).id != NewImage(now').id
  {
    if NewImage(now).id == NewImage(now').id {
      var a, b := "img-" + ShowInt(now), "img-" + ShowInt(now');
      assert a[4..] == ShowInt(now) && b[4..] == ShowInt(now');
      ParseShowInt(now);
      ParseShowInt(now');
      assert false;
    }
  }

  /** A fresh entry has no link until a size, width or height is set. */
  lemma NewImageHasNoLink(now: int, base: string)
    ensures ImageLink(NewImage(now), base).None?
  {
  }

  // ---------------------------------------------------------------------
  // Properties of the type switch

  /** Switching to an external image clears width, height and size, and
      keeps the id, url and delay. */
  lemma SwitchToExternal(img: ImageConfig)
    ensures var r := Merge(img, SwitchPatch(External));
      r == ImageConfig(img.id, External, img.url, None, None, None, img.delay)
  {
  }

  /** Switching to a generated image clears the url, and keeps the id, the
      dimensions and the delay. */
  lemma SwitchToGenerate(img: ImageConfig)
    ensures var r := Merge(img, SwitchPatch(Generate));
      r == ImageConfig(img.id, Generate, None, img.width, img.height, img.size, img.delay)
  {
  }

  /** After a switch, the link depends only on the fields of the new type. */
  lemma SwitchedLink(img: ImageConfig, img': ImageConfig, kind: Kind, base: string)
    requires img.delay == img'.delay
    requires kind == External ==> img.url == img'.url
    requires kind == Generate ==> (img.width, img.height, img.size) == (img'.width, img'.height, img'.size)
    ensures ImageLink(Merge(img, SwitchPatch(kind)), base) == ImageLink(Merge(img', SwitchPatch(kind)), base)
  {
  }

  // ---------------------------------------------------------------------
  // Properties of the legacy entry and of the link

  /** The legacy entry exists exactly when there is image data; it is
      external exactly when `image` is given, and its fields are the
      non-empty parameters. */
  lemma LegacyImageFields(sp: Query)
    ensures var hasData := Truthy(Get(sp, "image")) || Truthy(Get(sp, "image_width"))
                           || Truthy(Get(sp, "image_height")) || Truthy(Get(sp, "image_size"));
      && (LegacyImage(sp).Some? <==> hasData)
      && (hasData ==> var img := LegacyImage(sp).value;
            && img.id == "legacy"
            && (img.kind == External <==> Truthy(Get(sp, "image")))
            && (img.url.Some? <==> Truthy(Get(sp, "image")))
            && img.url == NonEmpty(Get(sp, "image")) && img.width == NonEmpty(Get(sp, "image_width"))
            && img.height == NonEmpty(Get(sp, "image_height")) && img.size == NonEmpty(Get(sp, "image_size"))
            && (!Truthy(Get(sp, "image_delay")) ==> img.delay == Int(0))
            && (Truthy(Get(sp, "image_delay")) ==> img.delay == ParseInt(Get(sp, "image_delay").value)))
  {
  }

  /** An external image with a url: the proxy when its delay is positive,
      with the delay written in milliseconds, otherwise the url itself
      whatever the base. */
  lemma ExternalLink(image: ImageConfig, base: string, base': string)
    requires image.kind == External && Truthy(image.url)
    ensures Positive(image.delay) ==>
      && ImageLink(image, base).value.Endpoint?
      && ImageLink(image, base).value.route == ImageProxy
      && Get(ImageLink(image, base).value.query, "url") == image.url
      && Get(ImageLink(image, base).value.query, "delay") == Some(ShowNum(image.delay))
    ensures !Positive(image.delay) ==>
      ImageLink(image, base) == ImageLink(image, base') == Some(Direct(image.url.value))
  {
  }

  /** A generated image's link: `delay` always; `size` alone when it is a
      size other than "custom"; otherwise the width and height that are set;
      and no link at all without any of the three. */
  lemma GeneratedLink(image: ImageConfig, base: string)
    requires image.kind == Generate
    ensures ImageLink(image, base).Some? <==> Truthy(image.size) || Truthy(image.width) || Truthy(image.height)
    ensures ImageLink(image, base).Some? ==>
      var q := ImageLink(image, base).value.query;
      var preset := Truthy(image.size) && image.size.value != "custom";
      && ImageLink(image, base).value == Endpoint(base, GenerateImage, q)
      && Get(q, "delay") == Some(ShowNum(image.delay))
      && (Has(q, "size") <==> preset)
      && (Has(q, "width") <==> !preset && Truthy(image.width))
      && (Has(q, "height") <==> !preset && Truthy(image.height))
      && (preset ==> Get(q, "size") == image.size)
  {
    if ImageLink(image, base).Some? {
      GeneratorQueryParams(ShowNum(image.delay), OrEmpty(image.size), OrEmpty(image.width), OrEmpty(image.height));
    }
  }
}
