/** The image generation route (app/api/generate-image/route.ts): reads
    width, height, delay and size from the query, lets a preset override the
    explicit size, waits `delay` milliseconds and returns an SVG placeholder
    that shows its own dimensions. */
module GenerateImage {
  import opened Js
  import opened Urls
  import opened Http

  /** The parameters as the route reads them, defaults applied. */
  datatype Request = Request(width: Num, height: Num, delay: Num, size: Option<string>)

  /** The parameters read from the query: `parseInt` of width, height and
      delay when given and not empty, else the defaults 1200, 630 and 0;
      `size` as given. */
  function Requested(q: Query): (r: Request)
    ensures !Truthy(Get(q, "width")) ==> r.width == Int(1200)
    ensures !Truthy(Get(q, "height")) ==> r.height == Int(630)
    ensures !Truthy(Get(q, "delay")) ==> r.delay == Int(0)
    ensures Truthy(Get(q, "width")) ==> r.width == ParseInt(Get(q, "width").value)
    ensures Truthy(Get(q, "height")) ==> r.height == ParseInt(Get(q, "height").value)
    ensures Truthy(Get(q, "delay")) ==> r.delay == ParseInt(Get(q, "delay").value)
    ensures r.size == Get(q, "size")
  {
    Request(ParseOr(Get(q, "width"), 1200), ParseOr(Get(q, "height"), 630),
            ParseOr(Get(q, "delay"), 0), Get(q, "size"))
  }

  /** The route's own expressions, `parseInt(searchParams.get(k) || "1200")`
      and so on, compute `Requested`. */
  lemma RequestedAsWritten(q: Query)
    ensures Requested(q) == Request(ParseInt(ValueOr(q, "width", "1200")),
                                    ParseInt(ValueOr(q, "height", "630")),
                                    ParseInt(ValueOr(q, "delay", "0")), Get(q, "size"))
  {
    ParseDefault(Get(q, "width"), 1200);
    assert ShowInt(1200) == "1200";
    ParseDefault(Get(q, "height"), 630);
    assert ShowInt(630) == "630";
    ParseDefault(Get(q, "delay"), 0);
    assert ShowInt(0) == "0";
  }

  /** The preset table. */
  const Presets: map<string, (int, int)> :=
    map["small" := (600, 315), "medium" := (1200, 630), "large" := (1920, 1080)]

  /** The dimensions drawn: a preset's pair when `size` names one, else the
      requested width and height. */
  function Resolve(width: Num, height: Num, size: Option<string>): (d: (Num, Num))
    ensures size == Some("small") ==> d == (Int(600), Int(315))
    ensures size == Some("medium") ==> d == (Int(1200), Int(630))
    ensures size == Some("large") ==> d == (Int(1920), Int(1080))
    ensures size !in {Some("small"), Some("medium"), Some("large")} ==> d == (width, height)
  {
    if size.Some? && size.value in Presets then (Int(Presets[size.value].0), Int(Presets[size.value].1))
    else (width, height)
  }

  /** The `let finalWidth`/`finalHeight` assignments and the `switch` on
      the size; an unknown size falls through every case. */
  method ResolveSize(width: Num, height: Num, size: Option<string>)
    returns (finalWidth: Num, finalHeight: Num)
    ensures (finalWidth, finalHeight) == Resolve(width, height, size)
  {
    finalWidth := width;
    finalHeight := height;
    if Truthy(size) {
      match size.value
      case "small" =>
        finalWidth := Int(600);
        finalHeight := Int(315);
      case "medium" =>
        finalWidth := Int(1200);
        finalHeight := Int(630);
      case "large" =>
        finalWidth := Int(1920);
        finalHeight := Int(1080);
      case _ =>
    }
  }

  /** What the SVG shows: its size and the delay it was served with. */
  datatype Picture = Picture(width: Num, height: Num, delay: Num)

  /** The picture drawn for a request. */
  function Drawn(r: Request): Picture {
    var d := Resolve(r.width, r.height, r.size);
    Picture(d.0, d.1, r.delay)
  }

  /** `Math.min(w, h) / k` as JavaScript writes it (floating point, so it
      is supplied by the host): the three font sizes use k = 20, 30, 40. */
  type FontSize = (Num, Num, int) -> string

  /** The template literal starts with a line break and indentation. */
  const SvgWidth: string := "\n      <svg width=\""
  const SvgHeight: string := "\" height=\""
  const SvgNamespace: string := "\" xmlns=\"http://www.w3.org/2000/svg\">"

  /** The "W × H" label. */
  function DimensionLabel(p: Picture): string {
    ShowNum(p.width) + " × " + ShowNum(p.height)
  }

  /** The "Delayed {delay}ms" line, present only for a positive delay. */
  function DelayLine(p: Picture, fontSize: FontSize): (r: string)
    ensures r != "" <==> Positive(p.delay)
  {
    if Positive(p.delay) then DelayOpen + fontSize(p.width, p.height, 40) + DelayText + ShowNum(p.delay) + DelayClose
    else ""
  }

  const DelayOpen: string :=
    "<text x=\"50%\" y=\"65%\" dominant-baseline=\"middle\" text-anchor=\"middle\" "
    + "fill=\"rgba(255,255,255,0.6)\" font-family=\"Arial, sans-serif\" font-size=\""
  const DelayText: string := "\">Delayed "
  const DelayClose: string := "ms</text>"

  /** The SVG document the route returns: the opening tag, which carries the
      width and height, a gradient background, the title "Generated Image",
      the size label and the delay line. */
  function Markup(p: Picture, fontSize: FontSize): string {
    SvgWidth + (ShowNum(p.width) + AfterWidth(p, fontSize))
  }

  function AfterWidth(p: Picture, fontSize: FontSize): string {
    SvgHeight + (ShowNum(p.height) + AfterHeight(p, fontSize))
  }

  function AfterHeight(p: Picture, fontSize: FontSize): string {
    BeforeLabel(p, fontSize) + (LabelOpen + (DimensionLabel(p) + (LabelClose + AfterLabel(p, fontSize))))
  }

  /** The rest of the opening tag, the background and the title: what
      comes before the size label's text element. */
  function BeforeLabel(p: Picture, fontSize: FontSize): string {
    SvgNamespace + Background
    + fontSize(p.width, p.height, 20) + Title
    + fontSize(p.width, p.height, 30)
  }

  /** What follows the size label's text element: the delay line and the
      closing tag. */
  function AfterLabel(p: Picture, fontSize: FontSize): string {
    DelayLine(p, fontSize) + Close
  }

  const Background: string :=
    "\n        <defs>"
    + "\n          <linearGradient id=\"grad\" x1=\"0%\" y1=\"0%\" x2=\"100%\" y2=\"100%\">"
    + "\n            <stop offset=\"0%\" style=\"stop-color:#667eea;stop-opacity:1\" />"
    + "\n            <stop offset=\"100%\" style=\"stop-color:#764ba2;stop-opacity:1\" />"
    + "\n          </linearGradient>"
    + "\n        </defs>"
    + "\n        <rect width=\"100%\" height=\"100%\" fill=\"url(#grad)\"/>"
    + "\n        <text x=\"50%\" y=\"45%\" dominant-baseline=\"middle\" text-anchor=\"middle\" fill=\"white\" "
    + "font-family=\"Arial, sans-serif\" font-size=\""
  const Title: string :=
    "\" font-weight=\"bold\">"
    + "\n          Generated Image"
    + "\n        </text>"
    + "\n        <text x=\"50%\" y=\"55%\" dominant-baseline=\"middle\" text-anchor=\"middle\" "
    + "fill=\"rgba(255,255,255,0.8)\" font-family=\"Arial, sans-serif\" font-size=\""
  const LabelOpen: string := "\">\n          "
  const LabelClose: string := "\n        </text>\n        "
  const Close: string := "\n      </svg>\n    "

  /** The route: parse, resolve the size, wait when the delay is positive,
      then answer 200 with the SVG and the image headers. `fails` stands for
      an exception inside the `try`, answered with 500. */
  method Handle(q: Query, fails: bool, fontSize: FontSize) returns (run: Run)
    ensures run.steps == (if Positive(Requested(q).delay) then [Sleep(Requested(q).delay.i)] else [])
    ensures fails ==> run.response == Response(500, Text("Error generating image"), [])
    ensures !fails ==> run.response == Response(200, Text(Markup(Drawn(Requested(q)), fontSize)),
                                                ImageHeaders("image/svg+xml"))
  {
    var r := Requested(q);
    var finalWidth, finalHeight := ResolveSize(r.width, r.height, r.size);
    var steps := SleepFor(r.delay, 1);
    if fails {
      run := Run(steps, Plain(500, "Error generating image"));
    } else {
      var svg := Markup(Picture(finalWidth, finalHeight, r.delay), fontSize);
      run := Run(steps, Response(200, Text(svg), ImageHeaders("image/svg+xml")));
    }
  }

  // ---------------------------------------------------------------------
  // Properties

  /** The SVG's width and height attributes read back, with parseInt, as the
      dimensions drawn: the document starts with `<svg width="` and what
      follows reads as the width; it starts with `<svg width="W" height="`,
      W the width's numeral, and what follows reads as the height. */
  lemma SizeAttributesReadBack(w: int, h: int, delay: Num, fontSize: FontSize)
    ensures var m := Markup(Picture(Int(w), Int(h), delay), fontSize);
      && After(m, SvgWidth).Some? && ParseInt(After(m, SvgWidth).value) == Int(w)
      && After(m, SvgWidth + ShowInt(w) + SvgHeight).Some?
      && ParseInt(After(m, SvgWidth + ShowInt(w) + SvgHeight).value) == Int(h)
  {
    var p := Picture(Int(w), Int(h), delay);
    var afterW, afterH := AfterWidth(p, fontSize), AfterHeight(p, fontSize);
    ClosingQuotes(p, fontSize);
    var m := Markup(p, fontSize);
    assert m == SvgWidth + (ShowInt(w) + afterW);
    AfterPrefix(SvgWidth, ShowInt(w) + afterW);
    ReadInteger(w, afterW);
    assert afterW == SvgHeight + (ShowInt(h) + afterH);
    Regroup(SvgWidth, ShowInt(w), SvgHeight, ShowInt(h) + afterH);
    AfterPrefix(SvgWidth + ShowInt(w) + SvgHeight, ShowInt(h) + afterH);
    ReadInteger(h, afterH);
  }

  /** Each numeral is closed by a double quote. */
  lemma ClosingQuotes(p: Picture, fontSize: FontSize)
    ensures AfterWidth(p, fontSize) != [] && AfterWidth(p, fontSize)[0] == '"'
    ensures AfterHeight(p, fontSize) != [] && AfterHeight(p, fontSize)[0] == '"'
  {
    assert AfterWidth(p, fontSize)[0] == SvgHeight[0];
    assert AfterHeight(p, fontSize)[0] == SvgNamespace[0];
  }

  /** The SVG holds the "W × H" label in its text element, after the
      width and height attributes, and the label reads back, with
      parseInt, as the drawn width and, after its " × ", as the drawn
      height. */
  lemma LabelReadsBack(w: int, h: int, delay: Num, fontSize: FontSize)
    ensures var p := Picture(Int(w), Int(h), delay);
      var rest := AfterHeight(p, fontSize);
      var head := BeforeLabel(p, fontSize) + LabelOpen;
      var second := ShowInt(h) + (LabelClose + AfterLabel(p, fontSize));
      var first := ShowInt(w) + (" × " + second);
      && Markup(p, fontSize) == SvgWidth + ShowInt(w) + SvgHeight + (ShowInt(h) + rest)
      && rest == BeforeLabel(p, fontSize) + (LabelOpen + DimensionLabel(p) + LabelClose) + AfterLabel(p, fontSize)
      && After(rest, head) == Some(first) && ParseInt(first) == Int(w)
      && After(rest, head + ShowInt(w) + " × ") == Some(second) && ParseInt(second) == Int(h)
  {
    var p := Picture(Int(w), Int(h), delay);
    MarkupCut(p, fontSize);
    LabelCut(p, fontSize);
    var tail := LabelClose + AfterLabel(p, fontSize);
    assert tail[0] == LabelClose[0];
    ReadSeparated(BeforeLabel(p, fontSize) + LabelOpen, w, " × ", h, tail);
  }

  /** For a positive delay, the text after the size label is the delay
      line and the closing tag: a text element whose content is "Delayed ",
      the delay and "ms"; read from there, parseInt gives the delay. */
  lemma DelayLineReadsBack(p: Picture, fontSize: FontSize)
    requires Positive(p.delay)
    ensures var head := DelayOpen + fontSize(p.width, p.height, 40) + DelayText;
      var shown := ShowInt(p.delay.i) + DelayClose;
      && DelayText == "\">Delayed " && DelayClose == "ms</text>"
      && DelayLine(p, fontSize) == head + shown
      && AfterLabel(p, fontSize) == head + (shown + Close)
      && After(DelayLine(p, fontSize), head) == Some(shown)
      && ParseInt(shown) == p.delay
  {
    var head := DelayOpen + fontSize(p.width, p.height, 40) + DelayText;
    var shown := ShowInt(p.delay.i) + DelayClose;
    assert DelayClose[0] == 'm';
    ParsePositive(p.delay.i, DelayClose);
    assert ShowInt(p.delay.i) + DelayClose == ShowNat(p.delay.i) + DelayClose;
    AfterPrefix(head, shown);
    assert DelayLine(p, fontSize) == head + shown;
  }

  /** The SVG cut after the height attribute's numeral. */
  lemma MarkupCut(p: Picture, fontSize: FontSize)
    ensures Markup(p, fontSize) == SvgWidth + ShowNum(p.width) + SvgHeight + (ShowNum(p.height) + AfterHeight(p, fontSize))
  {
    assert AfterWidth(p, fontSize) == SvgHeight + (ShowNum(p.height) + AfterHeight(p, fontSize));
    Regroup(SvgWidth, ShowNum(p.width), SvgHeight, ShowNum(p.height) + AfterHeight(p, fontSize));
  }

  /** The text after the height attribute cut at the size label. */
  lemma LabelCut(p: Picture, fontSize: FontSize)
    requires p.width.Int? && p.height.Int?
    ensures var before, after := BeforeLabel(p, fontSize), AfterLabel(p, fontSize);
      && AfterHeight(p, fontSize) == before + (LabelOpen + DimensionLabel(p) + LabelClose) + after
      && AfterHeight(p, fontSize)
         == (before + LabelOpen) + (ShowInt(p.width.i) + (" × " + (ShowInt(p.height.i) + (LabelClose + after))))
  {
    var before, after := BeforeLabel(p, fontSize), AfterLabel(p, fontSize);
    Regroup4(before, LabelOpen, DimensionLabel(p), LabelClose, after);
    Regroup4'(before, LabelOpen, ShowInt(p.width.i), " × ", ShowInt(p.height.i), LabelClose + after);
  }

  /** A preset named by `size` decides the drawn size whatever width and
      height say, and the drawn size is never NaN then. */
  lemma PresetOverrides(q: Query, q': Query)
    requires Get(q, "size") == Get(q', "size") && Truthy(Get(q, "size"))
    requires Get(q, "size").value in Presets
    ensures var r, r' := Requested(q), Requested(q');
      Resolve(r.width, r.height, r.size) == Resolve(r'.width, r'.height, r'.size)
  {
  }
}
