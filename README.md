# OG simulator, modelled in Dafny

The OG simulator is a small Next.js site for testing how crawlers read
Open Graph and Twitter meta tags. The model covers five parts of it:

- **The page (`app/page.tsx`).** It reads the title, description, site
  name, a page delay in seconds and the single-image parameters from
  the query. It waits for the delay. It then returns metadata whose
  image is a proxy link or a generator link.
- **The generate-image endpoint.** It turns `width`, `height`, `size`
  and `delay` into an SVG of the requested size. It waits `delay`
  milliseconds first.
- **The image-proxy endpoint.** It waits, fetches `url` with the
  user agent `OG-Simulator/1.0`, and passes the bytes on.
- **The two simulator components.** The single-image form
  (`og-simulator-client.tsx`) builds the test URL, the image links and
  the meta-tag preview. The multi-image form
  (`og-simulator-client-new.tsx`) keeps a list of image entries.

How each part is modelled:

- The components are classes whose fields are the React state. Their
  updaters are methods that reassign those fields.
- The endpoints and the page are functions from the request to a `Run`:
  the steps taken (waits and upstream fetches) and the response.
- The link builders and the meta-tag serialiser are functions over
  `Urls.Link` and `ClientOld.Tag`.

Modules:

- `Js`: parseInt, number-to-text and `||`-defaults.
- `Urls`: URLSearchParams get/set, the two encodings (encodeURIComponent
  and the form encoding of URLSearchParams), and the links the program
  builds.
- `Http`: steps, responses and headers.
- `GenerateImage` and `ImageProxy`: the two API routes.
- `Images`: the image entries the components share.
- `ClientNew` and `ClientOld`: the two components.
- `Page`: the page's `generateMetadata`.
- `EndToEnd`: lemmas that follow one value through several of these
  parts. Examples are a page's `image_delay` reaching the proxy's wait,
  and a test URL read back by the page.

Units:

- The components hold delays in seconds. The model stores them exactly
  as integer milliseconds (`Js.Num`).
- The generator reads `delay` in milliseconds.
- The proxy multiplies its `delay` by 1000.
- The page multiplies `delay` and `image_delay` by 1000.

Two findings come from these units; the "## Findings" section below
records them.

## Model

| member | source | states |
|---|---|---|
| GenerateImage.Requested | app/api/generate-image/route.ts:5-8 | width, height and delay are parseInt of the parameter when it is given and non-empty, and 1200, 630 and 0 otherwise; size is the parameter as given |
| GenerateImage.RequestedAsWritten | app/api/generate-image/route.ts:5-7 | the parsed request equals parseInt of `get(k) \|\| "1200"`, `"630"` and `"0"`, the defaults written as text |
| GenerateImage.Resolve | app/api/generate-image/route.ts:11-29 | small, medium and large give 600×315, 1200×630 and 1920×1080; any other size, or none, keeps the parsed width and height |
| GenerateImage.ResolveSize | app/api/generate-image/route.ts:11-29 | the `let` plus `switch` assignments compute exactly the preset table |
| GenerateImage.PresetOverrides | app/api/generate-image/route.ts:14-29 | with a preset size, the drawn size is the same whatever width and height the query carries |
| GenerateImage.DelayLine | app/api/generate-image/route.ts:53 | the delay line is present exactly when the delay is positive |
| GenerateImage.DelayLineReadsBack | app/api/generate-image/route.ts:53-54 | for a positive delay, the text after the size label is a text element whose content is "Delayed ", the delay and "ms", then the closing tag; read after "Delayed ", parseInt gives the delay |
| GenerateImage.Handle | app/api/generate-image/route.ts:3-70 | waits `delay` ms exactly when it is positive; on success answers 200 with the SVG of the resolved size and the image headers; on an exception answers 500 "Error generating image" |
| GenerateImage.Markup | app/api/generate-image/route.ts:38-55 | the SVG template with the drawn width and height; it has no contract of its own, and what it holds is stated by SizeAttributesReadBack, LabelReadsBack, MarkupCut, LabelCut and DelayLineReadsBack |
| GenerateImage.SizeAttributesReadBack | app/api/generate-image/route.ts:38-39 | the `width` and `height` attributes of the SVG parse back to the drawn width and height |
| GenerateImage.LabelReadsBack | app/api/generate-image/route.ts:38-55 | in the SVG, after the size attributes, the second text element holds the "W × H" label; read from there, parseInt gives the drawn width, and from after " × " the drawn height |
| GenerateImage.MarkupCut | app/api/generate-image/route.ts:38-39 | the SVG is the `<svg width="` opening, the width's text, `" height="`, the height's text, then the rest of the template |
| GenerateImage.LabelCut | app/api/generate-image/route.ts:47-53 | the rest of the template is the title element, the label element holding "W × H", then the optional delay line and the closing tag |
| ImageProxy.Answered | app/api/image-proxy/route.ts:25-47 | a thrown fetch or body read gives 500 "Error fetching image"; a non-ok upstream status from 200 to 599 other than 304 is passed on with "Failed to fetch image", while a 304 or a status outside that range, which the response constructor refuses, gives 500 "Error fetching image"; an ok answer gives 200 with its bytes, the no-cache headers and its content type, image/jpeg when it has none |
| ImageProxy.Handle | app/api/image-proxy/route.ts:4-47 | no `url` gives 400 "Missing image URL" with nothing fetched; otherwise it waits delay×1000 ms when the delay is positive, then fetches `url` with the OG-Simulator/1.0 user agent, then answers as above |
| ImageProxy.HandleCorrected | app/api/image-proxy/route.ts:14-16 | the same proxy waiting `delay` ms, the unit its callers use |
| ImageProxy.UnbuildableStatus | app/api/image-proxy/route.ts:25-27 | an upstream 304, 600 or 199 gives 500 "Error fetching image", since the text response with that status cannot be built; a 404 is passed on as 404 "Failed to fetch image" |
| ImageProxy.MissingUrlIgnoresUpstream | app/api/image-proxy/route.ts:8-10 | without `url` neither proxy takes a step, and what upstream would answer makes no difference |
| ImageProxy.FetchIsLast | app/api/image-proxy/route.ts:14-23 | with a `url` there are one or two steps: at most one wait, then the fetch of that exact url with the OG-Simulator/1.0 user agent as the last step |
| ImageProxy.SuccessIff | app/api/image-proxy/route.ts:25-43 | with a `url`, the proxy answers 200 exactly when upstream answered an ok status and its body could be read; it then passes the bytes on, and otherwise answers with text |
| ImageProxy.ThousandfoldWait | app/api/image-proxy/route.ts:14-16 | for a positive delay the as-written proxy waits 1000 times as long as the corrected one, and the two give the same response |
| Images.Merge | app/og-simulator-client-new.tsx:72 | the spread merge: each of the seven fields (id, type, url, width, height, size, delay) is the patch's when the patch has it, and the entry's otherwise |
| Images.Updated | app/og-simulator-client-new.tsx:70-74 | the mapped list has the same length |
| Images.UpdatedAt | app/og-simulator-client-new.tsx:70-74 | each entry with the id is merged with the patch; every other entry is unchanged |
| Images.UpdatedAbsent | app/og-simulator-client-new.tsx:70-74 | updating an id nobody has changes nothing |
| Images.Removed | app/og-simulator-client-new.tsx:76-78 | filtering never lengthens the list |
| Images.RemovedConcat | app/og-simulator-client-new.tsx:76-78 | filtering distributes over concatenation |
| Images.RemovedMembers | app/og-simulator-client-new.tsx:76-78 | an entry survives exactly when it was there and does not have the id |
| Images.RemovedTwice | app/og-simulator-client-new.tsx:76-78 | removing twice is removing once |
| Images.RemovedAbsent | app/og-simulator-client-new.tsx:76-78 | removing an id nobody has changes nothing |
| Images.NewImageIds | app/og-simulator-client-new.tsx:61-68 | entries added at different times get different `img-{now}` ids |
| Images.NewImageHasNoLink | app/og-simulator-client-new.tsx:61-68 | a new entry has no size, width or height, hence no image link yet |
| Images.NonEmpty | app/og-simulator-client-new.tsx:51-54 | `s \|\| undefined` is defined exactly when s is non-empty, and is then s |
| Images.SwitchToExternal | app/og-simulator-client-new.tsx:197-202 | switching to external sets the type and clears width, height and size, keeping url and delay |
| Images.SwitchToGenerate | app/og-simulator-client-new.tsx:197-202 | switching to generate sets the type and clears the url, keeping the sizes and delay |
| Images.SwitchedLink | app/og-simulator-client-new.tsx:197-202 | after a switch to external the link depends only on the url and the delay; after a switch to generate, only on the sizes and the delay |
| Images.LegacyImage | app/og-simulator-client-new.tsx:44-57 | a legacy entry has id "legacy"; as written (divided by 1000), its delay in milliseconds is parseInt(image_delay), or 0 |
| Images.LegacyImageCorrected | app/og-simulator-client-new.tsx:55 | the corrected entry exists exactly when the as-written one does, and equals it with the delay read as seconds |
| Images.LegacyImageFields | app/og-simulator-client-new.tsx:44-57 | the legacy entry exists exactly when image or one of image_width, image_height, image_size is non-empty; it has id "legacy"; it is external, and has a url, exactly when image is non-empty; its url, width, height and size are image, image_width, image_height and image_size when non-empty, and absent otherwise; its delay is parseInt(image_delay), or 0 |
| Images.ImageLink | app/og-simulator-client-new.tsx:80-100 | an entry has a link exactly when it is external with a url, or generated with a size, width or height; a link to an endpoint carries the caller's base; a plain url is returned only for an external entry, and is its url |
| Images.ExternalLink | app/og-simulator-client-new.tsx:83-87 | an external entry with a url gives, for a positive delay, the proxy link holding the url and the delay in ms; otherwise the url itself, whatever the base |
| Images.GeneratedLink | app/og-simulator-client-new.tsx:88-99 | a generated entry with a size or dimension gives the generator link holding delay, then size or width/height; with neither field it gives none |
| Urls.GeneratorQuery | app/og-simulator-client-new.tsx:89-96 | the generator query holds one to three parameters, the first always `delay` |
| Urls.GeneratorQueryParams | app/og-simulator-client-new.tsx:89-96 | the generator query holds delay always, size for a preset other than "custom", otherwise each non-empty width and height, and never size with a dimension |
| Urls.BuildGeneratorQuery | app/og-simulator-client-new.tsx:89-96 | the `params.set` sequence on an empty URLSearchParams builds exactly that query |
| Urls.GetSet | app/og-simulator-client.tsx:136-148 | after `set(k, v)`, `get(k)` is v and every other name reads as before |
| Urls.SetOnce | app/og-simulator-client.tsx:136-148 | after `set(k, v)` exactly one pair is named k |
| Urls.DecodeEncode | app/og-simulator-client-new.tsx:85 | decoding encodeURIComponent's encoding of a url gives it back |
| Urls.FormDecodeEncode | app/og-simulator-client-new.tsx:97 | decoding URLSearchParams' form encoding (a space as `+`, `!'()~` escaped) gives the text back |
| Urls.EncodersDiffer | app/page.tsx:37-48 | the two encodings differ: a space is `%20` in a proxy link and `+` in a generator link, and `(` `)` are kept by one and escaped by the other |
| Js.ParseShowInt | app/page.tsx:22-23 | parseInt of an integer's numeral is that integer |
| Js.ParseShowSeconds | app/og-simulator-client.tsx:48 | parseInt of a number of seconds written as text is the whole seconds, truncated toward zero |
| ClientNew.Simulator.constructor | app/og-simulator-client-new.tsx:30-34 | empty texts, a delay of 0 and no images |
| ClientNew.Simulator.LoadParams | app/og-simulator-client-new.tsx:37-58 | each text from its parameter or the default, the delay from `delay` in seconds, and the image list replaced by the legacy entry exactly when there is one |
| ClientNew.Simulator.AddImage | app/og-simulator-client-new.tsx:61-68 | the new entry is appended and nothing else changes |
| ClientNew.Simulator.UpdateImage | app/og-simulator-client-new.tsx:70-74 | the list becomes its update by id |
| ClientNew.Simulator.RemoveImage | app/og-simulator-client-new.tsx:76-78 | the list becomes its filter by id |
| ClientNew.Simulator.SelectType | app/og-simulator-client-new.tsx:197-202 | the list becomes its update with the type switch |
| ClientOld.Simulator.constructor | app/og-simulator-client.tsx:21-40 | empty texts and fields, zero delays, no images |
| ClientOld.Simulator.LoadParams | app/og-simulator-client.tsx:43-69 | the form fields become the loaded form and the images the legacy entry exactly when there is one |
| ClientOld.Simulator.LoadFields | app/og-simulator-client.tsx:44-52 | the ten form fields become those read from the query |
| ClientOld.Simulator.AddImage | app/og-simulator-client.tsx:72-79 | the new entry is appended and nothing else changes |
| ClientOld.Simulator.UpdateImage | app/og-simulator-client.tsx:81-85 | the list becomes its update by id |
| ClientOld.Simulator.RemoveImage | app/og-simulator-client.tsx:87-89 | the list becomes its filter by id |
| ClientOld.Simulator.BuildTestQuery | app/og-simulator-client.tsx:134-148 | the `params.set` sequence builds exactly the test query of the current form |
| ClientOld.Simulator.BuildTexts | app/og-simulator-client.tsx:136-139 | the first four parameters: title, description, image and site_name when given |
| ClientOld.Simulator.BuildDelays | app/og-simulator-client.tsx:140-141 | then delay and image_delay when positive, in seconds |
| ClientOld.Simulator.GenerateTestUrl | app/og-simulator-client.tsx:134-153 | the test URL is the home page of the origin with the test query |
| ClientOld.Simulator.UpdateUrl | app/og-simulator-client.tsx:156-173 | the address becomes the query of the form's fields, and the form is kept |
| ClientOld.Pieces | app/og-simulator-client.tsx:136-148 | one piece per test parameter, in the order they are set |
| ClientOld.TestQuery | app/og-simulator-client.tsx:134-148 | the test query holds at most the nine test parameters, each named from their list |
| ClientOld.LoadedForm | app/og-simulator-client.tsx:44-52 | the loaded texts are never empty, because of their defaults, and the generation switch is kept as it was |
| ClientOld.TestQueryParams | app/og-simulator-client.tsx:134-141 | each text parameter is present exactly when its field is non-empty, and each delay exactly when it is positive, written in seconds |
| ClientOld.TestQueryDimensions | app/og-simulator-client.tsx:144-148 | image_size, image_width and image_height are present only for a generated image without a url, as the preset or the dimensions |
| ClientOld.ReloadedForm | app/og-simulator-client.tsx:44-52 | loading the test URL gives the form with the loader's default texts, delays truncated to whole seconds, and only the dimensions that were written |
| ClientOld.WholePart | app/og-simulator-client.tsx:48-49 | a positive delay is truncated to whole seconds; any other becomes 0 |
| ClientOld.TestQueryRoundTrip | app/og-simulator-client.tsx:134-148 | loading the test URL gives back the form exactly when its texts are non-empty, its delays whole seconds and its size fields consistent |
| ClientOld.HalfSecondLost | app/og-simulator-client.tsx:48 | a 1.5 s page delay comes back as 1 s |
| ClientOld.LegacyImageLink | app/og-simulator-client.tsx:114-131 | there is a link exactly when there is an image url, a preset size, a width or a height; it is an endpoint link on the caller's base, and goes to the proxy exactly when there is an image url |
| ClientOld.CurrentImageLink | app/og-simulator-client.tsx:228-247 | as the legacy link, except that without an image url a generator link needs generation to be on |
| ClientOld.UrlTakesPrecedence | app/og-simulator-client.tsx:114-118 | an image url gives the proxy link whatever the size fields say |
| ClientOld.LegacyProxiesWithoutDelay | app/og-simulator-client.tsx:114-118 | the single-image link goes through the proxy even with no image delay, unlike the per-entry link |
| ClientOld.CurrentMatchesLegacy | app/og-simulator-client.tsx:228-247 | with image generation on, the meta-tag image link is the single-image link; with it off, there is one exactly when an image url is given |
| ClientOld.CurrentGeneratorLink | app/og-simulator-client.tsx:233-246 | without a url, a generated image with a size or dimension gives the generator link with the delay in ms |
| ClientOld.MetaTags | app/og-simulator-client.tsx:249-262 | 9 tags when the meta-tag image link exists and 7 otherwise, the first og:title with the form's title |
| ClientOld.MetaTagsShape | app/og-simulator-client.tsx:249-262 | 9 tags with an image link and 7 without; og:image and twitter:image are present exactly when there is a link, and carry it |
| ClientOld.Attributes | app/og-simulator-client.tsx:267-269 | no attributes give the empty text; otherwise the text starts with the first key and `="` |
| ClientOld.Render | app/og-simulator-client.tsx:270 | an element starts with `<meta ` and ends with ` />` |
| ClientOld.Serialize | app/og-simulator-client.tsx:265-272 | the text is empty exactly when there are no tags |
| ClientOld.SerializeConcat | app/og-simulator-client.tsx:265-272 | serialising two lists is joining their texts with a line break |
| ClientOld.RenderPair | app/og-simulator-client.tsx:266-270 | a tag is `<meta` followed by its attributes as `k="v"` pairs |
| ClientOld.SerializeLines | app/og-simulator-client.tsx:265-272 | with line-free attributes, the text has one line per tag |
| Page.Param | app/page.tsx:10-19 | a given, non-empty parameter is read as is; otherwise the default |
| Page.ParamOfQuery | app/page.tsx:8-9 | the page's parameter object holds a name exactly when the query does, with the same first value |
| Page.Read | app/page.tsx:10-19 | title, description and site name are never empty, nor are the two delay texts, because of their defaults |
| Page.ReadDefaults | app/page.tsx:10-19 | title, description, site_name and image take their defaults when not given, and the delays read as 0 |
| Page.PageBase | app/page.tsx:27-30 | without headers the base is http://localhost:3000 |
| Page.PageBaseParts | app/page.tsx:27-30 | the base reads back as the protocol, then "://", then the host, each the header when given and non-empty and its default otherwise |
| Page.FinalImageLink | app/page.tsx:33-49 | there is a link exactly when the image, size, width or height is given; it is an endpoint link on the page's base, and goes to the proxy exactly when the image is given |
| Page.ChooseImage | app/page.tsx:33-49 | the `let finalImageUrl` assignments compute the final image link |
| Page.GenerateMetadata | app/page.tsx:6-70 | waits parseInt(delay)×1000 ms exactly when that is positive, then returns the metadata for the final image link |
| Page.PageWait | app/page.tsx:22-24 | a delay of s seconds waits exactly when s is positive, then s×1000 ms |
| Page.MetadataFor | app/page.tsx:51-68 | the title and description appear at the top, in Open Graph and in Twitter; Open Graph carries the page url and the site name |
| Page.ImagesIffLink | app/page.tsx:51-68 | the Open Graph images (`[{url}]`) and the Twitter images (`[url]`) are present exactly when a link was chosen, both holding its text |
| Page.ImageWins | app/page.tsx:35-37 | an image parameter gives the proxy link with its delay, whatever the size fields |
| Page.GeneratorParams | app/page.tsx:38-48 | without an image, a generator link exactly when a size, width or height is given, holding delay and either size or the given dimensions |
| Page.CustomAloneGivesLink | app/page.tsx:38-48 | size "custom" alone still gives a generator link with only the delay |
| EndToEnd.ImageDelayThroughProxy | app/api/image-proxy/route.ts:14-16 | an entry's d-ms delay in a proxy link makes the proxy wait d×1000 ms, and the corrected proxy d ms |
| EndToEnd.PageDelayThroughProxy | app/page.tsx:37 | an image_delay of s seconds on the page makes the proxy wait s×1000×1000 ms, and the corrected proxy s×1000 ms |
| EndToEnd.GeneratorWaitsMilliseconds | app/api/generate-image/route.ts:33-35 | the generator link of an entry makes the generator wait exactly the entry's delay in ms |
| EndToEnd.PageReadsTestDelays | app/page.tsx:16-17 | the page reads the test URL's delays as the form's delays truncated to whole seconds |
| EndToEnd.PageWaitForTestUrl | app/page.tsx:22-24 | the page waits for a test URL exactly when the form's page delay is at least one second |
| EndToEnd.PageReadsTestImage | app/page.tsx:13-19 | the page reads the test URL's image url and dimensions as the form holds them |
| EndToEnd.PageImageDelay | app/page.tsx:37 | the delay the page writes into its image link is the form's image delay truncated to whole seconds, in ms |
| EndToEnd.PageMatchesMetaTags | app/page.tsx:33-49 | for whole-second image delays, the page's image link for a test URL equals the one the component's meta tags announce |
| EndToEnd.PageDropsHalfSecond | app/page.tsx:37 | an image delay of 1.5 s and one of 1 s give the page the same proxy link |
| EndToEnd.LegacyEntryOfTestUrl | app/og-simulator-client.tsx:60-68 | the legacy entry of a test URL holds the form's url and sizes, with the delay read at the given scale |
| EndToEnd.PageProxyForTestUrl | app/page.tsx:35-37 | for a test URL with an image, the page's link is the proxy link with the image delay in ms |
| EndToEnd.LegacyEntryThousandth | app/og-simulator-client-new.tsx:55 | an image delay of s seconds comes back as an entry of s/1000 s, whose link carries s ms where the page's carries s×1000 |
| EndToEnd.LegacyEntryCorrected | app/og-simulator-client-new.tsx:55 | read at the right scale, the entry's delay is the form's, and its link equals both the meta-tag link and the page's |
| EndToEnd.LegacyThroughProxy | app/api/image-proxy/route.ts:14-16 | on the path from a test URL through the legacy entry to the proxy, the two unit slips cancel: the proxy as written waits s seconds; the corrected proxy alone waits s ms; both corrections together wait s seconds |
| EndToEnd.EntryThroughProxy | app/og-simulator-client-new.tsx:55 | the test URL's legacy entry, its delay read at a given scale, links to the proxy, and the two proxies wait for it the entry's delay times 1000 and the entry's delay |

## Left out

- GenerateImage.Handle: the font sizes are `Math.min(w, h) / k`, floating point. They are a parameter (`FontSize`), not computed.
- GenerateImage.Handle: `fails` stands for an exception thrown inside the `try`. What could throw is not modelled.
- Delays in seconds are held exactly as integer milliseconds. JavaScript's floating-point rounding of `n / 1000 * 1000` is not modelled. It is exact for every whole n up to 1000, but `image_delay=1001` gives a legacy entry whose proxy link carries `delay=1000.9999999999999`, which the proxy's parseInt reads as 1000.
- EndToEnd.LegacyThroughProxy: it and EndToEnd.EntryThroughProxy hold in the program only where `s / 1000 * 1000` is exact in doubles, for example for every s up to 1000; from s = 1001 the proxy as written waits 1000 s instead of 1001 s.
- Js.ShowNum: numbers are integers or NaN. Fractional or infinite numbers never reach the text conversions of this model.
- Js.ParseShowInt: numbers are unbounded integers, while JavaScript's are doubles. parseInt rounds a numeral beyond 2^53 (parseInt("99999999999999999999") is 1e20), and the text conversion switches to exponent form from 1e21. In the program the round trip therefore holds only below 2^53.
- Js.ParseInt: the same double range is not modelled; the value of a long numeral is exact here.
- Urls.Encode: only ASCII characters are encoded exactly. For other characters the UTF-8 expansion of encodeURIComponent is not modelled.
- Urls.FormEncode: as with encodeURIComponent, only ASCII characters are encoded exactly. Proxy links (encodeURIComponent) and generator links and the test URL (URLSearchParams) each use their own encoder, so the gap is non-ASCII characters only.
- Page.ParamsOf: a name repeated in the query is read by its first value. Next.js would give an array; that case is not modelled.
- Http: the wait is a `Sleep` step. Timers, their 32-bit overflow and concurrency between requests are not modelled.
- Page.PageBase: header names are matched as lower-case map keys. Case-insensitive lookup is not modelled.
- ImageProxy.Handle: the upstream answer is a parameter (`Fetched`). The network and response streaming are not modelled.
- The JSX rendering, toasts, the clipboard, `router.push` and `useSearchParams` are left out, since they are UI and framework calls. `UpdateUrl` records the address it would push.
- `Date.now()` is a parameter (`now`) of AddImage.
- The single-image component has two `getImageUrl`. The one at og-simulator-client.tsx:91-111 is `Images.ImageLink`; the one at og-simulator-client.tsx:228-247 is `ClientOld.CurrentImageLink`, which the meta tags use.
- app/layout.tsx is not part of this model.

## Findings

| source | as written | input that shows it | evidently intended | confidence | as-written member | corrected member |
|---|---|---|---|---|---|---|
| app/api/image-proxy/route.ts:15 | the proxy waits `delay * 1000` ms, while every caller writes `delay` already in milliseconds | an external image with a 3 s delay gives `delay=3000` and the proxy waits 3,000,000 ms | wait `delay` ms | not executed | ImageProxy.Handle, EndToEnd.ImageDelayThroughProxy | ImageProxy.HandleCorrected |
| app/og-simulator-client-new.tsx:55 | the legacy import divides `image_delay` by 1000, reading seconds as milliseconds (also app/og-simulator-client.tsx:66) | `image_delay=2` (2 s, as the test URL and the page read it) becomes an entry of 0.002 s | `parseInt(image_delay)` seconds, as the page reads it | not executed | Images.LegacyImage, EndToEnd.LegacyEntryThousandth | Images.LegacyImageCorrected, EndToEnd.LegacyEntryCorrected |

The two findings meet on one path. A test URL with an `image_delay` of s
seconds becomes a legacy entry of s/1000 s. Its proxy link then carries s
ms, and the proxy as written waits s seconds, which is right only because
the two slips cancel. Correcting only the proxy would make it wait s ms.
The two corrections must therefore be made together
(`EndToEnd.LegacyThroughProxy`).

Observation, not a finding: the delay sliders step by 0.5 s, but the test
URL is read back with parseInt. A half second is therefore dropped
(`ClientOld.HalfSecondLost`, `EndToEnd.PageDropsHalfSecond`).
