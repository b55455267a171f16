/** The logic of search_coupang.py under the browser calls: reading the
    supplier cards (no threshold, no cap), the per-product record and
    counter of `hover_and_click_icons`, the record layout of its
    `write_result_to_file`, and the page loop of `main` with its search URL. */
module SearchCoupang {
  import opened Wrappers
  import opened Text
  import opened Products
  import opened Output
  import opened Numbering

  /** The supplier link is not read from the card: every record carries this text. */
  const PlaceholderUrl: string := "TEST"

  /** One supplier card of the extension panel. `None` marks a `find_element`
      that raised.
      - title, priceText: the texts of the title and the price `<div>`;
      - image: the card's `<img>`, carrying its `large` attribute. */
  datatype Card = Card(title: Option<string>, priceText: Option<string>, image: Option<Attr>)

  datatype CardExtension = CardExtension(url: string, title: string, price: real, margin: real, imageUrl: Attr)

  /** The lookups of a card succeed and its price parses once `¥` is
      removed and the text trimmed. */
  predicate WellFormed(card: Card, conv: Conversions)
  {
    && card.title.Some? && card.priceText.Some? && card.image.Some?
    && conv.parseFloat(CleanNumber(card.priceText.value, '¥')).Some?
  }

  /** The body of the per-card `try`. */
  function EvaluateCard(card: Card, mainPrice: real, conv: Conversions): (r: Option<CardExtension>)
    ensures r.Some? <==> WellFormed(card, conv)
    ensures r.Some? ==>
      && r.value.url == PlaceholderUrl
      && Some(r.value.price) == conv.parseFloat(CleanNumber(card.priceText.value, '¥'))
      && r.value.margin == Margin(mainPrice, r.value.price)
      && card == Card(Some(r.value.title), card.priceText, Some(r.value.imageUrl))
  {
    if !WellFormed(card, conv) then None
    else
      var price := conv.parseFloat(CleanNumber(card.priceText.value, '¥')).value;
      Some(CardExtension(PlaceholderUrl, card.title.value, price, Margin(mainPrice, price), card.image.value))
  }

  /** What `extract_extension_products` returns: one record per well-formed
      card, in card order, with no threshold and no cap. */
  function Extracted(cards: seq<Card>, mainPrice: real, conv: Conversions): (r: seq<CardExtension>)
    ensures |r| <= |cards|
    ensures forall k :: 0 <= k < |r| ==> r[k].url == PlaceholderUrl && r[k].margin == Margin(mainPrice, r[k].price)
  {
    if cards == [] then []
    else
      var init := Extracted(cards[..|cards| - 1], mainPrice, conv);
      match EvaluateCard(cards[|cards| - 1], mainPrice, conv)
      case None => init
      case Some(e) => init + [e]
  }

  lemma {:induction false} ExtractedAppend(a: seq<Card>, b: seq<Card>, mainPrice: real, conv: Conversions)
    ensures Extracted(a + b, mainPrice, conv) == Extracted(a, mainPrice, conv) + Extracted(b, mainPrice, conv)
  {
    if b == [] {
      assert a + b == a;
    } else {
      var b' := b[..|b| - 1];
      assert (a + b)[..|a + b| - 1] == a + b';
      assert (a + b)[|a + b| - 1] == b[|b| - 1];
      ExtractedAppend(a, b', mainPrice, conv);
    }
  }

  /** When every card is well formed, each yields exactly one record, in
      the same position. */
  lemma {:induction false} ExtractedAllCards(cards: seq<Card>, mainPrice: real, conv: Conversions)
    requires forall k :: 0 <= k < |cards| ==> WellFormed(cards[k], conv)
    ensures |Extracted(cards, mainPrice, conv)| == |cards|
    ensures forall k :: 0 <= k < |cards| ==>
      Some(Extracted(cards, mainPrice, conv)[k]) == EvaluateCard(cards[k], mainPrice, conv)
  {
    if cards != [] {
      var init := cards[..|cards| - 1];
      var last := cards[|cards| - 1];
      ExtractedAllCards(init, mainPrice, conv);
      assert WellFormed(last, conv);
      var e := EvaluateCard(last, mainPrice, conv).value;
      assert Extracted(cards, mainPrice, conv) == Extracted(init, mainPrice, conv) + [e];
      forall k | 0 <= k < |cards|
        ensures Some(Extracted(cards, mainPrice, conv)[k]) == EvaluateCard(cards[k], mainPrice, conv)
      {
        if k < |init| {
          assert init[k] == cards[k];
        }
      }
    }
  }

  /** A card that raises yields nothing and does not stop the cards after it. */
  lemma SkippedCardIgnored(a: seq<Card>, card: Card, b: seq<Card>, mainPrice: real, conv: Conversions)
    requires !WellFormed(card, conv)
    ensures Extracted(a + [card] + b, mainPrice, conv) == Extracted(a + b, mainPrice, conv)
  {
    ExtractedAppend(a + [card], b, mainPrice, conv);
    ExtractedAppend(a, [card], mainPrice, conv);
    ExtractedAppend(a, b, mainPrice, conv);
    assert [card][..0] == [];
    assert Extracted([card], mainPrice, conv) == [];
  }

  lemma ExtractedStep(cards: seq<Card>, i: nat, mainPrice: real, conv: Conversions)
    requires i < |cards|
    ensures Extracted(cards[..i + 1], mainPrice, conv)
      == Extracted(cards[..i], mainPrice, conv)
         + (match EvaluateCard(cards[i], mainPrice, conv) case None => [] case Some(e) => [e])
  {
    assert cards[..i + 1][..i] == cards[..i];
  }

  /** `extract_extension_products`: one pass over the cards, appending. */
  method ExtractExtensionProducts(cards: seq<Card>, mainPrice: real, conv: Conversions) returns (exts: seq<CardExtension>)
    ensures exts == Extracted(cards, mainPrice, conv)
  {
    exts := [];
    for i := 0 to |cards|
      invariant exts == Extracted(cards[..i], mainPrice, conv)
    {
      var r := EvaluateCard(cards[i], mainPrice, conv);
      if r.Some? {
        exts := exts + [r.value];
      }
      ExtractedStep(cards, i, mainPrice, conv);
    }
    assert cards[..|cards|] == cards;
  }

  /** The record `hover_and_click_icons` builds and writes. */
  datatype CardResult = CardResult(main: MainProduct, extensions: seq<CardExtension>)

  const MainLabels: seq<string> := ["URL", "Title", "Price", "Image URL"]
  /** Every card field's label starts with this. */
  const KeyPrefix: string := "Extension Product "

  function ExtensionKey(name: string): string
  {
    KeyPrefix + name
  }

  const ExtensionLabels: seq<string> := [
    ExtensionKey("URL"), ExtensionKey("Title"), ExtensionKey("Price"),
    ExtensionKey("Margin"), ExtensionKey("Image URL")]

  function MainLines(rec: CardResult, number: int, conv: Conversions): seq<Line>
  {
    [Heading(number), Rule(6),
     Field(0, "URL", ShowAttr(rec.main.url)),
     Field(0, "Title", rec.main.title),
     Field(0, "Price", conv.showFloat(rec.main.price)),
     Field(0, "Image URL", rec.main.imageUrl),
     Blank]
  }

  function ExtensionLines(e: CardExtension, conv: Conversions): seq<Line>
  {
    [Rule(6),
     Field(2, ExtensionKey("URL"), e.url),
     Field(2, ExtensionKey("Title"), e.title),
     Field(2, ExtensionKey("Price"), conv.showFloat(e.price)),
     Field(2, ExtensionKey("Margin"), conv.showFloat(e.margin)),
     Field(2, ExtensionKey("Image URL"), ShowAttr(e.imageUrl)),
     Blank]
  }

  function ExtensionBlocks(exts: seq<CardExtension>, conv: Conversions): seq<seq<Line>>
  {
    seq(|exts|, i requires 0 <= i < |exts| => ExtensionLines(exts[i], conv))
  }

  /** The lines `write_result_to_file` appends for one record. It opens
      with the heading carrying the product number. */
  function ResultBlock(rec: CardResult, number: int, conv: Conversions): (r: seq<Line>)
    ensures |r| >= 7 && r[0] == Heading(number)
  {
    MainLines(rec, number, conv) + Concat(ExtensionBlocks(rec.extensions, conv))
  }

  /** A record with k supplier cards takes 7 + 7k lines. */
  lemma ResultBlockLength(rec: CardResult, number: int, conv: Conversions)
    ensures |ResultBlock(rec, number, conv)| == 7 + 7 * |rec.extensions|
  {
    ConcatLength(ExtensionBlocks(rec.extensions, conv), 7);
  }

  /** Supplier card k is written at lines 7 + 7k to 7 + 7k + 7. */
  lemma ResultBlockExtensionAt(rec: CardResult, number: int, conv: Conversions, k: nat)
    requires k < |rec.extensions|
    ensures |ResultBlock(rec, number, conv)| >= 7 + 7 * k + 7
    ensures ResultBlock(rec, number, conv)[7 + 7 * k..7 + 7 * k + 7] == ExtensionLines(rec.extensions[k], conv)
  {
    ConcatBlockAt(MainLines(rec, number, conv), ExtensionBlocks(rec.extensions, conv), 7, k);
  }

  lemma MainLinesLabels(rec: CardResult, number: int, conv: Conversions)
    ensures Labels(MainLines(rec, number, conv)) == MainLabels
  {
    var ls := MainLines(rec, number, conv);
    assert Labels(ls[6..]) == Labels(ls[7..]);
    assert Labels(ls[5..]) == ["Image URL"] + Labels(ls[6..]);
    assert Labels(ls[4..]) == ["Price"] + Labels(ls[5..]);
    assert Labels(ls[3..]) == ["Title"] + Labels(ls[4..]);
    assert Labels(ls[2..]) == ["URL"] + Labels(ls[3..]);
    assert Labels(ls[1..]) == Labels(ls[2..]);
  }

  lemma ExtensionLinesLabels(e: CardExtension, conv: Conversions)
    ensures Labels(ExtensionLines(e, conv)) == ExtensionLabels
  {
    var ls := ExtensionLines(e, conv);
    assert Labels(ls[6..]) == Labels(ls[7..]);
    assert Labels(ls[5..]) == [ExtensionKey("Image URL")] + Labels(ls[6..]);
    assert Labels(ls[4..]) == [ExtensionKey("Margin")] + Labels(ls[5..]);
    assert Labels(ls[3..]) == [ExtensionKey("Price")] + Labels(ls[4..]);
    assert Labels(ls[2..]) == [ExtensionKey("Title")] + Labels(ls[3..]);
    assert Labels(ls[1..]) == [ExtensionKey("URL")] + Labels(ls[2..]);
  }

  /** A field indented by two spaces whose key is `ExtensionKey(name)`. */
  lemma IndentedFieldStart(name: string, value: string)
    ensures StartsWith(Render(Field(2, ExtensionKey(name), value)), "  " + KeyPrefix)
  {
    var r := Render(Field(2, ExtensionKey(name), value));
    assert Repeat(' ', 2) == "  ";
    assert r == ("  " + KeyPrefix) + (name + ": " + value);
  }

  /** As written to the file, a card's block is a line of six dashes, five
      lines starting with two spaces and `Extension Product `, and a blank
      line. */
  lemma ExtensionLinesRendered(e: CardExtension, conv: Conversions)
    ensures RenderAll(ExtensionLines(e, conv))[0] == "------"
    ensures forall j :: 1 <= j <= 5 ==> StartsWith(RenderAll(ExtensionLines(e, conv))[j], "  " + KeyPrefix)
    ensures RenderAll(ExtensionLines(e, conv))[6] == ""
  {
    assert Repeat('-', 6) == "------";
    IndentedFieldStart("URL", e.url);
    IndentedFieldStart("Title", e.title);
    IndentedFieldStart("Price", conv.showFloat(e.price));
    IndentedFieldStart("Margin", conv.showFloat(e.margin));
    IndentedFieldStart("Image URL", ShowAttr(e.imageUrl));
  }

  /** The labels come in a fixed order: URL, Title, Price and Image URL for
      the product, then the five `Extension Product` labels for each card. */
  lemma ResultBlockLabels(rec: CardResult, number: int, conv: Conversions)
    ensures Labels(ResultBlock(rec, number, conv))
      == MainLabels + Concat(seq(|rec.extensions|, _ => ExtensionLabels))
  {
    var blocks := ExtensionBlocks(rec.extensions, conv);
    LabelsAppend(MainLines(rec, number, conv), Concat(blocks));
    MainLinesLabels(rec, number, conv);
    forall k | 0 <= k < |blocks|
      ensures Labels(blocks[k]) == ExtensionLabels
    {
      ExtensionLinesLabels(rec.extensions[k], conv);
    }
    LabelsConcat(blocks, seq(|rec.extensions|, _ => ExtensionLabels));
  }

  /** `write_result_to_file`: the product lines, then each card's lines,
      appended to the result file. */
  method WriteResult(rec: CardResult, searchQuery: string, file: ResultFile, number: int, conv: Conversions)
    requires file.path == searchQuery + ".txt"
    modifies file
    ensures file.lines == old(file.lines) + RenderAll(ResultBlock(rec, number, conv))
  {
    file.AppendRecord(MainLines(rec, number, conv), ExtensionBlocks(rec.extensions, conv));
  }

  /** What one listing comes to; `closed` is the single close button. */
  function ProductOutcome(l: Listing<Card>, conv: Conversions): Outcome<CardResult>
  {
    match ReadMainProduct(l, conv)
    case None => Skipped
    case Some(main) => Written(CardResult(main, Extracted(l.panel, main.price, conv)), l.closed)
  }

  function Outcomes(listings: seq<Listing<Card>>, conv: Conversions): (outs: seq<Outcome<CardResult>>)
    ensures |outs| == |listings|
  {
    seq(|listings|, i requires 0 <= i < |listings| => ProductOutcome(listings[i], conv))
  }

  function Entry(o: Outcome<CardResult>, number: int, conv: Conversions): seq<string>
  {
    match o
    case Skipped => []
    case Written(rec, _) => RenderAll(ResultBlock(rec, number, conv))
  }

  /** Everything one call appends: each written record, numbered by the
      counter's value when its listing is reached. */
  function Log(outs: seq<Outcome<CardResult>>, start: int, conv: Conversions): seq<string>
  {
    if outs == [] then []
    else
      var i := |outs| - 1;
      Log(outs[..i], start, conv) + Entry(outs[i], NumberAt(outs, start, i), conv)
  }

  lemma LogStep(outs: seq<Outcome<CardResult>>, start: int, conv: Conversions, i: nat)
    requires i < |outs|
    ensures Log(outs[..i + 1], start, conv) == Log(outs[..i], start, conv) + Entry(outs[i], NumberAt(outs, start, i), conv)
  {
    var p := outs[..i + 1];
    assert p[..i] == outs[..i];
    assert NumberAt(p, start, i) == NumberAt(outs, start, i);
  }

  /** The product loop of `hover_and_click_icons`. The counter's final value
      is returned so that the contract can speak of it. */
  method HoverAndClickIcons(listings: seq<Listing<Card>>, searchQuery: string, file: ResultFile, start: int, conv: Conversions)
    returns (next: int)
    requires file.path == searchQuery + ".txt"
    modifies file
    ensures file.lines == old(file.lines) + Log(Outcomes(listings, conv), start, conv)
    ensures next == start + Completed(Outcomes(listings, conv))
  {
    ghost var outs := Outcomes(listings, conv);
    var productNumber := start;
    for i := 0 to |listings|
      invariant file.lines == old(file.lines) + Log(outs[..i], start, conv)
      invariant productNumber == NumberAt(outs, start, i)
    {
      ghost var before := file.lines;
      ghost var entry := Entry(outs[i], NumberAt(outs, start, i), conv);
      var main := ReadMainProduct(listings[i], conv);
      if main.Some? {
        var exts := ExtractExtensionProducts(listings[i].panel, main.value.price, conv);
        var rec := CardResult(main.value, exts);
        assert outs[i] == Written(rec, listings[i].closed);
        assert Entry(outs[i], productNumber, conv) == RenderAll(ResultBlock(rec, productNumber, conv));
        WriteResult(rec, searchQuery, file, productNumber, conv);
        assert file.lines == before + entry;
        if listings[i].closed {
          productNumber := productNumber + 1;
        }
      } else {
        assert outs[i] == Skipped;
        assert entry == [];
        assert file.lines == before + entry;
      }
      LogStep(outs, start, conv, i);
      AppendAssoc(old(file.lines), Log(outs[..i], start, conv), entry);
      NumberStep(outs, start, i);
    }
    assert outs[..|listings|] == outs;
    next := productNumber;
  }

  /** The parameters `main` searches with. */
  datatype SearchConfig = SearchConfig(query: string, minPrice: int, maxPrice: int, rating: int, listSize: int)

  const Defaults: SearchConfig := SearchConfig("laptop", 30000, 31000, 4, 72)

  /** `main` visits the pages `range(1, 12)`. */
  const FirstPage: int := 1
  const LastPage: int := 11

  /** The part of the search URL before the page number. */
  function UrlHead(cfg: SearchConfig): string
  {
    "https://www.coupang.com/np/search?q=" + cfg.query
    + "&filterSetByUser=true&channel=user&isPriceRange=true&minPrice=" + IntToDecimal(cfg.minPrice)
    + "&maxPrice=" + IntToDecimal(cfg.maxPrice) + "&page="
  }

  /** The part of the search URL after the page number. */
  function UrlTail(cfg: SearchConfig): string
  {
    "&rating=" + IntToDecimal(cfg.rating) + "&listSize=" + IntToDecimal(cfg.listSize)
  }

  /** The search URL of one page: q, minPrice, maxPrice, page, rating and
      listSize, in this order. */
  function SearchUrl(cfg: SearchConfig, page: int): string
  {
    UrlHead(cfg) + IntToDecimal(page) + UrlTail(cfg)
  }

  /** The page number stands right after the fixed head of the URL, and the
      URL of a page ends with the same tail whatever the page. */
  lemma SearchUrlLayout(cfg: SearchConfig, page: int)
    ensures StartsWith(SearchUrl(cfg, page), UrlHead(cfg))
    ensures |SearchUrl(cfg, page)| == |UrlHead(cfg)| + |IntToDecimal(page)| + |UrlTail(cfg)|
    ensures SearchUrl(cfg, page)[|UrlHead(cfg)|..|UrlHead(cfg)| + |IntToDecimal(page)|] == IntToDecimal(page)
    ensures SearchUrl(cfg, page)[|UrlHead(cfg)| + |IntToDecimal(page)|..] == UrlTail(cfg)
  {
    var h, d, t := UrlHead(cfg), IntToDecimal(page), UrlTail(cfg);
    MiddleSlice(h, d, t);
    assert (h + d + t)[..|h|] == h;
    assert (h + d + t)[|h| + |d|..] == t;
  }

  /** Different pages have different URLs. */
  lemma SearchUrlPagesDistinct(cfg: SearchConfig, p: nat, q: nat)
    requires SearchUrl(cfg, p) == SearchUrl(cfg, q)
    ensures p == q
  {
    var h, t := UrlHead(cfg), UrlTail(cfg);
    var a, b := NatToDecimal(p), NatToDecimal(q);
    assert SearchUrl(cfg, p) == h + a + t && SearchUrl(cfg, q) == h + b + t;
    assert |a| == |b|;
    assert (h + a + t)[|h|..|h| + |a|] == a;
    assert (h + b + t)[|h|..|h| + |b|] == b;
    NatToDecimalInjective(p, q);
  }

  /** With `main`'s parameters, the first page visited is this URL: each
      parameter's text stands in its place in the template. */
  lemma DefaultsFirstUrl()
    ensures SearchUrl(Defaults, FirstPage)
      == "https://www.coupang.com/np/search?q=" + "laptop"
         + "&filterSetByUser=true&channel=user&isPriceRange=true&minPrice=" + "30000"
         + "&maxPrice=" + "31000" + "&page=" + "1"
         + "&rating=" + "4" + "&listSize=" + "72"
  {
    DecimalText30000();
    DecimalText31000();
    DecimalTextSmall();
  }

  lemma DecimalTextSmall()
    ensures IntToDecimal(1) == "1" && IntToDecimal(4) == "4" && IntToDecimal(72) == "72"
  {
    assert NatToDecimal(7) == "7";
  }

  lemma DecimalText30000()
    ensures NatToDecimal(30000) == "30000"
  {
    assert NatToDecimal(3) == "3" && NatToDecimal(30) == "30" && NatToDecimal(300) == "300";
    assert NatToDecimal(3000) == "3000";
  }

  lemma DecimalText31000()
    ensures NatToDecimal(31000) == "31000"
  {
    assert NatToDecimal(3) == "3" && NatToDecimal(31) == "31" && NatToDecimal(310) == "310";
    assert NatToDecimal(3100) == "3100";
  }

  /** What the page loop appends: the pages in order, each numbered from 1. */
  function SweepLog(cfg: SearchConfig, pageAt: string -> seq<Listing<Card>>, conv: Conversions, pages: nat): seq<string>
  {
    if pages == 0 then []
    else
      var url := SearchUrl(cfg, FirstPage + pages - 1);
      SweepLog(cfg, pageAt, conv, pages - 1) + Log(Outcomes(pageAt(url), conv), 1, conv)
  }

  lemma SweepLogStep(cfg: SearchConfig, pageAt: string -> seq<Listing<Card>>, conv: Conversions, n: nat)
    ensures SweepLog(cfg, pageAt, conv, n + 1)
      == SweepLog(cfg, pageAt, conv, n) + Log(Outcomes(pageAt(SearchUrl(cfg, FirstPage + n)), conv), 1, conv)
  {
  }

  /** The URLs of the first n pages, in page order. */
  function PageUrls(cfg: SearchConfig, n: nat): (r: seq<string>)
    ensures |r| == n
  {
    if n == 0 then [] else PageUrls(cfg, n - 1) + [SearchUrl(cfg, FirstPage + n - 1)]
  }

  /** Entry k of the list is the URL of page FirstPage + k. */
  lemma {:induction false} PageUrlsAt(cfg: SearchConfig, n: nat, k: nat)
    requires k < n
    ensures PageUrls(cfg, n)[k] == SearchUrl(cfg, FirstPage + k)
  {
    var init := PageUrls(cfg, n - 1);
    assert PageUrls(cfg, n) == init + [SearchUrl(cfg, FirstPage + n - 1)];
    if k < n - 1 {
      PageUrlsAt(cfg, n - 1, k);
      assert PageUrls(cfg, n)[k] == init[k];
    }
  }

  /** No page is visited twice. */
  lemma PageUrlsDistinct(cfg: SearchConfig, n: nat, j: nat, k: nat)
    requires j < k < n
    ensures PageUrls(cfg, n)[j] != PageUrls(cfg, n)[k]
  {
    PageUrlsAt(cfg, n, j);
    PageUrlsAt(cfg, n, k);
    if PageUrls(cfg, n)[j] == PageUrls(cfg, n)[k] {
      SearchUrlPagesDistinct(cfg, FirstPage + j, FirstPage + k);
    }
  }

  /** The page loop of `main`: builds each page's URL, loads it (`pageAt`
      gives the listings the browser then shows) and runs the product loop
      with the counter starting at 1. The visited URLs are returned. */
  method SearchPages(cfg: SearchConfig, pageAt: string -> seq<Listing<Card>>, file: ResultFile, conv: Conversions)
    returns (urls: seq<string>)
    requires file.path == cfg.query + ".txt"
    modifies file
    ensures urls == PageUrls(cfg, LastPage - FirstPage + 1)
    ensures file.lines == old(file.lines) + SweepLog(cfg, pageAt, conv, LastPage - FirstPage + 1)
  {
    urls := [];
    for n := 0 to LastPage - FirstPage + 1
      invariant urls == PageUrls(cfg, n)
      invariant file.lines == old(file.lines) + SweepLog(cfg, pageAt, conv, n)
    {
      var url := SearchUrl(cfg, FirstPage + n);
      var listings := pageAt(url);
      var _ := HoverAndClickIcons(listings, cfg.query, file, 1, conv);
      SweepLogStep(cfg, pageAt, conv, n);
      AppendAssoc(old(file.lines), SweepLog(cfg, pageAt, conv, n), Log(Outcomes(listings, conv), 1, conv));
      urls := urls + [url];
    }
  }
}
