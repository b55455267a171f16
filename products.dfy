/** What both scripts share: the values the browser hands over, the number
    conversions Python performs, the margin formula and the reading of the
    main product of a search-result listing. */
module Products {
  import opened Wrappers
  import opened Text

  /** The value of Selenium's `get_attribute`: `None` when the element has
      no such attribute. */
  type Attr = Option<string>

  /** An attribute as an f-string renders it: Python prints `None` as "None". */
  function ShowAttr(a: Attr): string
  {
    match a
    case None => "None"
    case Some(s) => s
  }

  /** Python's `float(text)`, `int(text)` and the `repr` of a float in an
      f-string. Their exact grammars and rounding are not modelled: the
      model holds for whichever functions are supplied. */
  datatype Conversions = Conversions(
    parseFloat: string -> Option<real>,
    parseInt: string -> Option<int>,
    showFloat: real -> string)

  /** The estimated margin of reselling a supplier item of price `extPrice`
      (yuan) at the listed price `mainPrice` (won): 89% of the listed price
      (the fee factor) less the supplier price at 250 won per yuan (the
      exchange rate). */
  function Margin(mainPrice: real, extPrice: real): (r: real)
    ensures r >= 0.0 <==> extPrice * 250.0 <= mainPrice * 0.89
  {
    mainPrice * 0.89 - extPrice * 250.0
  }

  /** A cheaper supplier item never has a lower margin, and a dearer listing
      never lowers it either. */
  lemma MarginMonotone(main1: real, main2: real, ext1: real, ext2: real)
    requires main1 <= main2 && ext2 <= ext1
    ensures Margin(main1, ext1) <= Margin(main2, ext2)
  {
  }

  lemma MarginExample()
    ensures Margin(100000.0, 100.0) == 64000.0
  {
  }

  /** The price text as the scripts clean it before `float`: every `drop`
      character removed (`replace`), then surrounding whitespace (`strip`). */
  function CleanNumber(text: string, drop: char): (r: string)
    ensures |r| <= |text|
    ensures r == [] || (!IsSpace(r[0]) && !IsSpace(r[|r| - 1]))
  {
    Strip(RemoveChar(text, drop))
  }

  /** The cleaned text holds no `drop` character. */
  lemma CleanNumberClean(text: string, drop: char)
    ensures drop !in CleanNumber(text, drop)
  {
    var removed := RemoveChar(text, drop);
    var left := StripLeft(removed);
    var r := StripRight(left);
    forall k | 0 <= k < |r|
      ensures r[k] != drop
    {
      assert r[k] == left[k] == removed[|removed| - |left| + k];
    }
  }

  /** One entry of the search-result list as the browser presents it.
      `None` marks a `find_element` that raised.
      - image: the product's `<img>`, carrying its `src` attribute;
      - panelOpened: the hover and every wait/click that opens the extension panel succeeded;
      - link, name, priceText: the `<a>` (its `href`), the name `<div>` and the price `<strong>`;
      - panel: the supplier entries the extension shows for it;
      - closed: every close button was found and clicked. */
  datatype Listing<P> = Listing(
    image: Option<Attr>,
    panelOpened: bool,
    link: Option<Attr>,
    name: Option<string>,
    priceText: Option<string>,
    panel: seq<P>,
    closed: bool)

  /** The main fields of a result record. */
  datatype MainProduct = MainProduct(url: Attr, title: string, price: real, imageUrl: string)

  /** Everything the per-product block needs before it reads the panel:
      all lookups succeed, the price parses after removing `,` and trimming,
      and the image has a `src` (on `None`, `startswith` raises). */
  predicate Readable<P>(l: Listing<P>, conv: Conversions)
  {
    && l.image.Some? && l.image.value.Some?
    && l.panelOpened
    && l.link.Some? && l.name.Some? && l.priceText.Some?
    && conv.parseFloat(CleanNumber(l.priceText.value, ',')).Some?
  }

  /** The main product of a listing, or `None` when the `try` block fails
      before the record is complete. */
  function ReadMainProduct<P>(l: Listing<P>, conv: Conversions): (r: Option<MainProduct>)
    ensures r.Some? <==> Readable(l, conv)
    ensures r.Some? ==> r.value.url == l.link.value && r.value.title == l.name.value
    ensures r.Some? ==> Some(r.value.price) == conv.parseFloat(CleanNumber(l.priceText.value, ','))
    ensures r.Some? ==> !StartsWith(r.value.imageUrl, "//")
    ensures r.Some? ==> r.value.imageUrl == l.image.value.value || r.value.imageUrl == "https:" + l.image.value.value
    ensures r.Some? ==> (r.value.imageUrl == l.image.value.value <==> !StartsWith(l.image.value.value, "//"))
  {
    if !Readable(l, conv) then None
    else
      var price := conv.parseFloat(CleanNumber(l.priceText.value, ',')).value;
      Some(MainProduct(l.link.value, l.name.value, price, NormalizeImageUrl(l.image.value.value)))
  }
}
