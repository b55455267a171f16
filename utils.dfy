/** The logic of utils.py under the browser calls: reading the supplier
    table with its margin and sales-volume filter and its cap of five, the
    per-product record and counter of `hover_and_click_icons`, and the
    record layout of `write_result_to_file`. */
module Utils {
  import opened Wrappers
  import opened Text
  import opened Products
  import opened Output
  import opened Numbering

  /** At most this many supplier rows are kept per product. */
  const MaxExtensions: nat := 5
  /** A kept row needs at least this margin ... */
  const MinMargin: real := 4000.0
  /** ... and at least this many sales. */
  const MinSalesVolume: int := 2

  /** One row of the supplier table. `None` marks a `find_element` that raised.
      - image: the row's `<img>`, carrying its `data-src` attribute;
      - title, priceCell, volumeCell: the texts of the title, third and fourth cells;
      - copiedUrl: what the clipboard holds once the copy-link button was
        clicked, `None` when the button is missing or the click or the paste
        fails. It is only asked for when the row passes the thresholds. */
  datatype TableRow = TableRow(
    image: Option<Attr>,
    title: Option<string>,
    priceCell: Option<string>,
    volumeCell: Option<string>,
    copiedUrl: Option<string>)

  datatype TableExtension = TableExtension(
    title: string, price: real, salesVolume: int, margin: real, imageUrl: Attr, url: string)

  /** A supplier row worth keeping for a product listed at `mainPrice`. */
  predicate Qualifies(e: TableExtension, mainPrice: real)
  {
    e.margin == Margin(mainPrice, e.price) && e.margin >= MinMargin && e.salesVolume >= MinSalesVolume
  }

  /** The lookups and the two parses of a row all succeed. */
  predicate WellFormed(row: TableRow, conv: Conversions)
  {
    && row.image.Some? && row.title.Some? && row.priceCell.Some? && row.volumeCell.Some?
    && conv.parseFloat(Strip(row.priceCell.value)).Some?
    && conv.parseInt(Strip(row.volumeCell.value)).Some?
  }

  /** The body of the per-row `try`: the row's record, or `None` when a
      lookup or a parse raises, when the row misses a threshold, or when its
      link cannot be copied. */
  function EvaluateRow(row: TableRow, mainPrice: real, conv: Conversions): (r: Option<TableExtension>)
    ensures r.Some? ==> Qualifies(r.value, mainPrice)
    ensures r.Some? <==>
      && WellFormed(row, conv)
      && Margin(mainPrice, conv.parseFloat(Strip(row.priceCell.value)).value) >= MinMargin
      && conv.parseInt(Strip(row.volumeCell.value)).value >= MinSalesVolume
      && row.copiedUrl.Some?
    ensures r.Some? ==>
      && Some(r.value.price) == conv.parseFloat(Strip(row.priceCell.value))
      && Some(r.value.salesVolume) == conv.parseInt(Strip(row.volumeCell.value))
      && row == TableRow(Some(r.value.imageUrl), Some(r.value.title), row.priceCell, row.volumeCell, Some(r.value.url))
  {
    if !WellFormed(row, conv) then None
    else
      var price := conv.parseFloat(Strip(row.priceCell.value)).value;
      var volume := conv.parseInt(Strip(row.volumeCell.value)).value;
      var margin := Margin(mainPrice, price);
      if margin >= MinMargin && volume >= MinSalesVolume && row.copiedUrl.Some? then
        Some(TableExtension(row.title.value, price, volume, margin, row.image.value, row.copiedUrl.value))
      else
        None
  }

  /** Every kept row, in table order, without the cap. */
  function Qualifying(rows: seq<TableRow>, mainPrice: real, conv: Conversions): (r: seq<TableExtension>)
    ensures |r| <= |rows|
    ensures forall k :: 0 <= k < |r| ==> Qualifies(r[k], mainPrice)
  {
    if rows == [] then []
    else
      var init := Qualifying(rows[..|rows| - 1], mainPrice, conv);
      match EvaluateRow(rows[|rows| - 1], mainPrice, conv)
      case None => init
      case Some(e) => init + [e]
  }

  lemma {:induction false} QualifyingAppend(a: seq<TableRow>, b: seq<TableRow>, mainPrice: real, conv: Conversions)
    ensures Qualifying(a + b, mainPrice, conv) == Qualifying(a, mainPrice, conv) + Qualifying(b, mainPrice, conv)
  {
    if b == [] {
      assert a + b == a;
    } else {
      var b' := b[..|b| - 1];
      assert (a + b)[..|a + b| - 1] == a + b';
      assert (a + b)[|a + b| - 1] == b[|b| - 1];
      QualifyingAppend(a, b', mainPrice, conv);
    }
  }

  /** What `extract_extension_products_from_table` returns: the first five
      kept rows, in table order. */
  function FirstQualifying(rows: seq<TableRow>, mainPrice: real, conv: Conversions): (r: seq<TableExtension>)
    ensures |r| <= MaxExtensions && |r| <= |Qualifying(rows, mainPrice, conv)|
    ensures forall k :: 0 <= k < |r| ==> Qualifies(r[k], mainPrice)
    ensures r == Qualifying(rows, mainPrice, conv)[..|r|]
    ensures |r| == MaxExtensions || r == Qualifying(rows, mainPrice, conv)
  {
    var q := Qualifying(rows, mainPrice, conv);
    if |q| <= MaxExtensions then q else q[..MaxExtensions]
  }

  /** A row that raises or misses a threshold changes nothing: it neither
      takes a place nor stops the rows after it from being read. */
  lemma SkippedRowIgnored(a: seq<TableRow>, row: TableRow, b: seq<TableRow>, mainPrice: real, conv: Conversions)
    requires EvaluateRow(row, mainPrice, conv).None?
    ensures FirstQualifying(a + [row] + b, mainPrice, conv) == FirstQualifying(a + b, mainPrice, conv)
  {
    QualifyingAppend(a + [row], b, mainPrice, conv);
    QualifyingAppend(a, [row], mainPrice, conv);
    QualifyingAppend(a, b, mainPrice, conv);
    assert [row][..0] == [];
    assert Qualifying([row], mainPrice, conv) == [];
  }

  /** Once five rows are kept, the rows after them do not matter. */
  lemma RowsAfterCapIgnored(a: seq<TableRow>, b: seq<TableRow>, mainPrice: real, conv: Conversions)
    requires |Qualifying(a, mainPrice, conv)| >= MaxExtensions
    ensures FirstQualifying(a + b, mainPrice, conv) == FirstQualifying(a, mainPrice, conv)
  {
    QualifyingAppend(a, b, mainPrice, conv);
  }

  lemma QualifyingStep(rows: seq<TableRow>, i: nat, mainPrice: real, conv: Conversions)
    requires i < |rows|
    ensures Qualifying(rows[..i + 1], mainPrice, conv)
      == Qualifying(rows[..i], mainPrice, conv)
         + (match EvaluateRow(rows[i], mainPrice, conv) case None => [] case Some(e) => [e])
  {
    assert rows[..i + 1][..i] == rows[..i];
  }

  /** The loop may stop at `i` once the whole table is read or five rows are kept. */
  lemma QualifyingStop(rows: seq<TableRow>, i: nat, mainPrice: real, conv: Conversions)
    requires i <= |rows|
    requires |Qualifying(rows[..i], mainPrice, conv)| <= MaxExtensions
    requires i == |rows| || |Qualifying(rows[..i], mainPrice, conv)| == MaxExtensions
    ensures Qualifying(rows[..i], mainPrice, conv) == FirstQualifying(rows, mainPrice, conv)
  {
    assert rows[..i] + rows[i..] == rows;
    QualifyingAppend(rows[..i], rows[i..], mainPrice, conv);
  }

  /** `extract_extension_products_from_table`: walks the rows in order,
      stops as soon as five are kept. */
  method ExtractFromTable(rows: seq<TableRow>, mainPrice: real, conv: Conversions) returns (exts: seq<TableExtension>)
    ensures exts == FirstQualifying(rows, mainPrice, conv)
  {
    exts := [];
    var i := 0;
    while i < |rows|
      invariant 0 <= i <= |rows|
      invariant exts == Qualifying(rows[..i], mainPrice, conv)
      invariant |exts| <= MaxExtensions
    {
      if |exts| >= MaxExtensions {
        break;
      }
      var r := EvaluateRow(rows[i], mainPrice, conv);
      if r.Some? {
        exts := exts + [r.value];
      }
      QualifyingStep(rows, i, mainPrice, conv);
      i := i + 1;
    }
    QualifyingStop(rows, i, mainPrice, conv);
  }

  /** The record `hover_and_click_icons` builds and writes. */
  datatype TableResult = TableResult(main: MainProduct, extensions: seq<TableExtension>)

  const MainLabels: seq<string> := ["URL", "Title", "Price", "Image URL"]
  const ExtensionLabels: seq<string> := ["URL", "Title", "Price", "Margin", "Image URL"]

  function MainLines(rec: TableResult, number: int, conv: Conversions): seq<Line>
  {
    [Blank, Blank, Heading(number), Rule(7),
     Field(0, "URL", ShowAttr(rec.main.url)),
     Field(0, "Title", rec.main.title),
     Field(0, "Price", conv.showFloat(rec.main.price)),
     Field(0, "Image URL", rec.main.imageUrl)]
  }

  function ExtensionLines(e: TableExtension, conv: Conversions): seq<Line>
  {
    [Rule(16),
     Field(0, "URL", e.url),
     Field(0, "Title", e.title),
     Field(0, "Price", conv.showFloat(e.price)),
     Field(0, "Margin", conv.showFloat(e.margin)),
     Field(0, "Image URL", ShowAttr(e.imageUrl))]
  }

  function ExtensionBlocks(exts: seq<TableExtension>, conv: Conversions): seq<seq<Line>>
  {
    seq(|exts|, i requires 0 <= i < |exts| => ExtensionLines(exts[i], conv))
  }

  /** The lines `write_result_to_file` appends for one record. It opens
      with two blank lines and the heading carrying the product number. */
  function ResultBlock(rec: TableResult, number: int, conv: Conversions): (r: seq<Line>)
    ensures |r| >= 8 && r[0] == Blank && r[1] == Blank && r[2] == Heading(number)
  {
    MainLines(rec, number, conv) + Concat(ExtensionBlocks(rec.extensions, conv))
  }

  /** A record with k supplier rows takes 8 + 6k lines. */
  lemma ResultBlockLength(rec: TableResult, number: int, conv: Conversions)
    ensures |ResultBlock(rec, number, conv)| == 8 + 6 * |rec.extensions|
  {
    ConcatLength(ExtensionBlocks(rec.extensions, conv), 6);
  }

  /** Supplier row k is written, whole and in order, at lines 8 + 6k to
      8 + 6k + 6 of the record. */
  lemma ResultBlockExtensionAt(rec: TableResult, number: int, conv: Conversions, k: nat)
    requires k < |rec.extensions|
    ensures |ResultBlock(rec, number, conv)| >= 8 + 6 * k + 6
    ensures ResultBlock(rec, number, conv)[8 + 6 * k..8 + 6 * k + 6] == ExtensionLines(rec.extensions[k], conv)
  {
    ConcatBlockAt(MainLines(rec, number, conv), ExtensionBlocks(rec.extensions, conv), 6, k);
  }

  lemma MainLinesLabels(rec: TableResult, number: int, conv: Conversions)
    ensures Labels(MainLines(rec, number, conv)) == MainLabels
  {
    var ls := MainLines(rec, number, conv);
    assert Labels(ls[7..]) == ["Image URL"] + Labels(ls[8..]);
    assert Labels(ls[6..]) == ["Price"] + Labels(ls[7..]);
    assert Labels(ls[5..]) == ["Title"] + Labels(ls[6..]);
    assert Labels(ls[4..]) == ["URL"] + Labels(ls[5..]);
    assert Labels(ls[3..]) == Labels(ls[4..]);
    assert Labels(ls[2..]) == Labels(ls[3..]);
    assert Labels(ls[1..]) == Labels(ls[2..]);
  }

  lemma ExtensionLinesLabels(e: TableExtension, conv: Conversions)
    ensures Labels(ExtensionLines(e, conv)) == ExtensionLabels
  {
    var ls := ExtensionLines(e, conv);
    assert Labels(ls[5..]) == ["Image URL"] + Labels(ls[6..]);
    assert Labels(ls[4..]) == ["Margin"] + Labels(ls[5..]);
    assert Labels(ls[3..]) == ["Price"] + Labels(ls[4..]);
    assert Labels(ls[2..]) == ["Title"] + Labels(ls[3..]);
    assert Labels(ls[1..]) == ["URL"] + Labels(ls[2..]);
  }

  /** The labels come in a fixed order: URL, Title, Price and Image URL for
      the product, then URL, Title, Price, Margin and Image URL for each
      supplier row; no other field is written. */
  lemma ResultBlockLabels(rec: TableResult, number: int, conv: Conversions)
    ensures Labels(ResultBlock(rec, number, conv))
      == MainLabels + Concat(seq(|rec.extensions|, _ => ExtensionLabels))
  {
    var blocks := ExtensionBlocks(rec.extensions, conv);
    LabelsAppend(MainLines(rec, number, conv), Concat(blocks));
    MainLinesLabels(rec, number, conv);
    forall k | 0 <= k < |blocks|
      ensures Labels(blocks[k]) == ExtensionLabels
    {
      ExtensionLinesLabels(rec.extensions[k], conv);
    }
    LabelsConcat(blocks, seq(|rec.extensions|, _ => ExtensionLabels));
  }

  /** The sales volume is kept in the record but never written: two records
      that differ only in their sales volumes give the same lines. */
  lemma ResultBlockIgnoresSalesVolume(rec: TableResult, rec': TableResult, number: int, conv: Conversions)
    requires rec'.main == rec.main && |rec'.extensions| == |rec.extensions|
    requires forall k :: 0 <= k < |rec.extensions| ==>
      rec'.extensions[k] == rec.extensions[k].(salesVolume := rec'.extensions[k].salesVolume)
    ensures ResultBlock(rec', number, conv) == ResultBlock(rec, number, conv)
  {
    assert ExtensionBlocks(rec'.extensions, conv) == ExtensionBlocks(rec.extensions, conv);
  }

  /** `write_result_to_file`: the product lines, then each supplier row's lines,
      appended to the result file. */
  method WriteResult(rec: TableResult, filename: string, file: ResultFile, number: int, conv: Conversions)
    requires file.path == filename + ".txt"
    modifies file
    ensures file.lines == old(file.lines) + RenderAll(ResultBlock(rec, number, conv))
  {
    file.AppendRecord(MainLines(rec, number, conv), ExtensionBlocks(rec.extensions, conv));
  }

  /** What one listing comes to: skipped when the block raises before the
      record is complete, otherwise written, and completed when the close
      buttons were clicked. */
  function ProductOutcome(l: Listing<TableRow>, conv: Conversions): Outcome<TableResult>
  {
    match ReadMainProduct(l, conv)
    case None => Skipped
    case Some(main) => Written(TableResult(main, FirstQualifying(l.panel, main.price, conv)), l.closed)
  }

  function Outcomes(listings: seq<Listing<TableRow>>, conv: Conversions): (outs: seq<Outcome<TableResult>>)
    ensures |outs| == |listings|
  {
    seq(|listings|, i requires 0 <= i < |listings| => ProductOutcome(listings[i], conv))
  }

  function Entry(o: Outcome<TableResult>, number: int, conv: Conversions): seq<string>
  {
    match o
    case Skipped => []
    case Written(rec, _) => RenderAll(ResultBlock(rec, number, conv))
  }

  /** Everything one call appends: each written record, numbered by the
      counter's value when its listing is reached. */
  function Log(outs: seq<Outcome<TableResult>>, start: int, conv: Conversions): seq<string>
  {
    if outs == [] then []
    else
      var i := |outs| - 1;
      Log(outs[..i], start, conv) + Entry(outs[i], NumberAt(outs, start, i), conv)
  }

  lemma LogStep(outs: seq<Outcome<TableResult>>, start: int, conv: Conversions, i: nat)
    requires i < |outs|
    ensures Log(outs[..i + 1], start, conv) == Log(outs[..i], start, conv) + Entry(outs[i], NumberAt(outs, start, i), conv)
  {
    var p := outs[..i + 1];
    assert p[..i] == outs[..i];
    assert NumberAt(p, start, i) == NumberAt(outs, start, i);
  }

  /** The product loop of `hover_and_click_icons`. The counter's final value
      is returned so that the contract can speak of it. */
  method HoverAndClickIcons(listings: seq<Listing<TableRow>>, filename: string, file: ResultFile, start: int, conv: Conversions)
    returns (next: int)
    requires file.path == filename + ".txt"
    modifies file
    ensures file.lines == old(file.lines) + Log(Outcomes(listings, conv), start, conv)
    ensures next == start + Completed(Outcomes(listings, conv))
  {
    ghost var outs := Outcomes(listings, conv);
    var productNumber := start;
    for i := 0 to |listings|
      invariant file.lines == old(file.lines) + Log(outs[..i], start, conv)
      invariant productNumber == NumberAt(outs, start, i)
    {
      ghost var before := file.lines;
      ghost var entry := Entry(outs[i], NumberAt(outs, start, i), conv);
      var main := ReadMainProduct(listings[i], conv);
      if main.Some? {
        var exts := ExtractFromTable(listings[i].panel, main.value.price, conv);
        var rec := TableResult(main.value, exts);
        assert outs[i] == Written(rec, listings[i].closed);
        assert Entry(outs[i], productNumber, conv) == RenderAll(ResultBlock(rec, productNumber, conv));
        WriteResult(rec, filename, file, productNumber, conv);
        assert file.lines == before + entry;
        if listings[i].closed {
          productNumber := productNumber + 1;
        }
      } else {
        assert outs[i] == Skipped;
        assert entry == [];
        assert file.lines == before + entry;
      }
      LogStep(outs, start, conv, i);
      AppendAssoc(old(file.lines), Log(outs[..i], start, conv), entry);
      NumberStep(outs, start, i);
    }
    assert outs[..|listings|] == outs;
    next := productNumber;
  }
}
