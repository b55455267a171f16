# coupang-search-selenium, modelled in Dafny

The scripts search Coupang for a query, hover over every product of a result
page, open the AliPrice browser extension, read the supplier products it
shows, and append a text record to `<query>.txt` for each product whose
details could be read (a product whose block raises before the write gets
no record). This project
models the logic that runs under those browser calls. It covers the two
variants: utils.py and search_coupang.py.

- `wrappers.dfy` (`Wrappers`): the `Option` type.
- `text.dfy` (`Text`): Python's `str.strip`, `str.replace` with one removed
  character, `str.startswith`, and the decimal text of an `int` in an
  f-string. It also covers the image-URL fix-up that turns `//host/...` into
  `https://host/...`.
- `products.dfy` (`Products`): what both variants share.
  - The margin formula.
  - The price-text cleaning.
  - The main product read from a result listing (`Listing`, `MainProduct`).
  - `Conversions`: Python's `float(...)`, `int(...)` and `str(float)`, passed
    in as parameters.
- `price_bands.dfy` (`PriceBands`): `get_increment` and its table of nine
  price bands.
- `output.dfy` (`Output`): the line layout `Label: value`, and the result file.
  The file is a class whose only operation appends lines.
- `numbering.dfy` (`Numbering`): the product counter of
  `hover_and_click_icons`. It grows only when a product's whole `try` block
  finishes.
- `utils.dfy` (`Utils`), the utils.py variant:
  - the supplier table, with its margin and sales-volume filter and its cap of
    five rows;
  - the record layout of `write_result_to_file`;
  - the product loop of `hover_and_click_icons`.
- `search_coupang.dfy` (`SearchCoupang`), the search_coupang.py variant:
  - the supplier cards, with no filter and no cap;
  - its record layout and its product loop;
  - the page loop of `main`, with the search URL template.

Browser lookups are inputs. A `find_element` that raises is `None`; a wait or
click sequence that fails is a `false` flag. The `try`/`except` blocks become
`Option` results and `Outcome` values.

## Model

| member | source | states |
|---|---|---|
| PriceBands.Increment | utils.py:222-251 | `None` exactly when the price is at least 500,000; otherwise the width lies between 100 and 20,000 |
| PriceBands.IncrementIsTable | utils.py:232-251 | the if/elif chain equals a lookup in the nine-row table of (bound, width) bands, for every price |
| PriceBands.BandsAscending | utils.py:232-249 | the table's bounds strictly increase, and its widths are positive and never shrink |
| PriceBands.IncrementBoundaries | utils.py:232-249 | the bands are strict `<`: one below a bound gives that row's width, the bound itself gives the next row's width (or `None` after the last), e.g. 64,999 gives 100 and 65,000 gives 200 |
| PriceBands.IncrementMonotone | utils.py:232-251 | where defined, the width is positive and non-decreasing in the price, and it is defined for every lower price |
| PriceBands.LookupMonotone | utils.py:232-251 | on an ascending table, a lookup that is defined at q is defined at any p <= q and gives a width no larger |
| PriceBands.LookupInBand | utils.py:232-251 | on an ascending table, a price inside row i's band gets row i's width |
| Text.Strip | utils.py:121 | `strip` leaves no whitespace at either end and never lengthens the text |
| Text.StripExact | utils.py:121 | stripping whitespace around a text that has non-space ends gives back exactly that text |
| Text.StripIdempotent | utils.py:121 | stripping twice is stripping once |
| Text.RemoveChar | utils.py:188 | `replace(c, "")` leaves no `c`, never lengthens the text, and changes nothing when there is no `c` |
| Text.RemoveCharDrops | utils.py:188 | `replace` removes the character at its place and keeps the text on both sides of it |
| Text.RemoveCharKeeps | utils.py:188 | any other character stays, in its place between the cleaned text before and after it |
| Text.NormalizeImageUrl | utils.py:191-192 | the result never starts with `//`; it is the URL itself exactly when the URL does not start with `//`, and `"https:" + url` otherwise |
| Text.NormalizeImageUrlIdempotent | utils.py:191-192 | fixing a URL twice is fixing it once |
| Text.NatToDecimal | utils.py:84 | the decimal text of a number is non-empty, all digits, and has no leading zero unless the number is 0 |
| Text.IntToDecimal | utils.py:84 | the text of an `int` starts with `-` exactly when it is negative, and the rest is all digits |
| Text.DecimalRoundTrip | utils.py:84 | reading back the decimal text gives the number |
| Text.NatToDecimalInjective | utils.py:84 | different numbers have different decimal texts |
| Products.Margin | utils.py:124 | the margin is non-negative exactly when the supplier price at 250 won per yuan is at most 89% of the listed price |
| Products.MarginMonotone | utils.py:124 | the margin never drops when the supplier price falls or the listed price rises |
| Products.MarginExample | utils.py:124 | a listing at 100,000 won with a supplier at 100 yuan has a margin of 64,000 |
| Products.CleanNumber | utils.py:188 | the cleaned price text is no longer than the original and has no surrounding whitespace |
| Products.CleanNumberClean | utils.py:188 | the cleaned price text contains no removed character |
| Products.ReadMainProduct | utils.py:186-199 | a record exists exactly when every lookup succeeds and the price parses after removing `,` and trimming; url and title come from the listing; the image URL never starts with `//`, and it is the `src` unchanged exactly when the `src` does not start with `//`, and `https:` + `src` otherwise |
| Output.RenderAll | utils.py:81-97 | one written line per logical line |
| Output.ResultFile.Open | utils.py:80-81 | the file opened is `<filename>.txt`, holding what it held before |
| Output.ResultFile.Append | utils.py:81 | append mode: the old content stays, and the new lines follow in order |
| Output.ResultFile.AppendRecord | utils.py:81-97 | writing the head lines and then each block in turn appends exactly their rendered concatenation after the old content |
| Numbering.Completed | utils.py:162-219 | the count of fully completed products is at most the count of listings |
| Numbering.NumberStep | utils.py:203-217 | the counter goes up by one after a listing exactly when that product completed, and stays otherwise |
| Numbering.NumberMonotone | utils.py:162-219 | the counter never goes down and grows by at most one per listing |
| Numbering.CompletedNumbersDistinct | utils.py:203-217 | fully completed products get strictly increasing, hence distinct, numbers |
| Numbering.NumberReused | utils.py:203-219 | a product written but failing at a close button leaves its number to the next product, while no product completes in between |
| Numbering.AllCompleted | utils.py:162-219 | the counter ends at start + number of listings exactly when every product completed |
| Utils.EvaluateRow | utils.py:117-144 | a row yields a record exactly when its lookups and parses succeed, the margin is at least 4,000, the sales volume at least 2 and the link can be copied; the record keeps the row's data and satisfies the margin formula |
| Utils.Qualifying | utils.py:114-144 | every kept row, in table order: no more than the rows, each meeting both thresholds with margin = main·0.89 − price·250 |
| Utils.FirstQualifying | utils.py:114-146 | at most five records, all qualifying, a prefix of the kept rows in table order, and all of them when fewer than five |
| Utils.SkippedRowIgnored | utils.py:117-144 | a row that raises or misses a threshold neither takes a place nor stops the loop |
| Utils.RowsAfterCapIgnored | utils.py:115-116 | once five rows are kept, the later rows do not matter |
| Utils.ExtractFromTable | utils.py:110-146 | the loop with its `break` at five returns exactly the first qualifying rows |
| Utils.ResultBlock | utils.py:82-84 | a record opens with two blank lines and the heading carrying the product number |
| Utils.ResultBlockLength | utils.py:81-97 | a record with k supplier rows takes 8 + 6k lines |
| Utils.ResultBlockExtensionAt | utils.py:90-97 | supplier row k is written at lines 8 + 6k to 8 + 6k + 6 |
| Utils.MainLinesLabels | utils.py:86-89 | the product fields are URL, Title, Price, Image URL, in that order |
| Utils.ExtensionLinesLabels | utils.py:93-97 | each supplier's fields are URL, Title, Price, Margin, Image URL, in that order |
| Utils.ResultBlockLabels | utils.py:86-97 | the labels of a whole record: the product's four, then five per supplier row |
| Utils.ResultBlockIgnoresSalesVolume | utils.py:90-97 | the sales volume is never written: records that differ only in it give the same lines |
| Utils.WriteResult | utils.py:72-97 | to the file `<filename>.txt`, appends exactly the record's rendered lines after the old content |
| Utils.Outcomes | utils.py:163-219 | one outcome per listing |
| Utils.HoverAndClickIcons | utils.py:148-219 | appends the records of the readable listings in order, each numbered by the counter; the counter ends at start + the number of completed products |
| SearchCoupang.EvaluateCard | search_coupang.py:120-138 | a card yields a record exactly when its lookups succeed and its price parses after removing `¥` and trimming; the URL is `"TEST"` and margin = main·0.89 − price·250 |
| SearchCoupang.Extracted | search_coupang.py:119-140 | no more records than cards, each with URL `"TEST"` and the margin formula |
| SearchCoupang.ExtractedAllCards | search_coupang.py:119-138 | with no threshold and no cap, every well-formed card yields exactly one record, in card order |
| SearchCoupang.SkippedCardIgnored | search_coupang.py:120-138 | a card that raises is skipped and does not stop the loop |
| SearchCoupang.ExtractExtensionProducts | search_coupang.py:115-140 | the loop returns exactly the records of the well-formed cards |
| SearchCoupang.ResultBlock | search_coupang.py:87 | a record opens with the heading carrying the product number |
| SearchCoupang.ResultBlockLength | search_coupang.py:86-102 | a record with k cards takes 7 + 7k lines |
| SearchCoupang.ResultBlockExtensionAt | search_coupang.py:94-102 | card k is written at lines 7 + 7k to 7 + 7k + 7 |
| SearchCoupang.ExtensionLinesRendered | search_coupang.py:96-102 | a card's block is `------`, five lines starting with two spaces and `Extension Product `, then a blank line |
| SearchCoupang.MainLinesLabels | search_coupang.py:89-92 | the product fields are URL, Title, Price, Image URL, in that order |
| SearchCoupang.ExtensionLinesLabels | search_coupang.py:97-101 | each card's fields are Extension Product URL, Title, Price, Margin, Image URL, in that order |
| SearchCoupang.ResultBlockLabels | search_coupang.py:89-101 | the labels of a whole record: the product's four, then five per card |
| SearchCoupang.WriteResult | search_coupang.py:77-102 | to the file `<searchquery>.txt`, appends exactly the record's rendered lines after the old content |
| SearchCoupang.Outcomes | search_coupang.py:160-203 | one outcome per listing |
| SearchCoupang.HoverAndClickIcons | search_coupang.py:142-203 | appends the records of the readable listings in order; the counter grows only after the close button succeeds and ends at start + the number of completed products |
| SearchCoupang.SearchUrlLayout | search_coupang.py:222-224 | the search URL is the fixed head (query, minPrice, maxPrice), then the page number's text, then the fixed tail (rating, listSize) |
| SearchCoupang.DefaultsFirstUrl | search_coupang.py:209-224 | with `main`'s parameters (laptop, 30000, 31000, rating 4, 72 per page), page 1's URL has each parameter's text in its place in the template |
| SearchCoupang.SearchUrlPagesDistinct | search_coupang.py:222-224 | two pages share a search URL only when they are the same page |
| SearchCoupang.PageUrls | search_coupang.py:221 | one URL per page visited |
| SearchCoupang.PageUrlsAt | search_coupang.py:221-224 | the k-th URL visited is the search URL of page 1 + k |
| SearchCoupang.PageUrlsDistinct | search_coupang.py:221-224 | no page is visited twice |
| SearchCoupang.SearchPages | search_coupang.py:218-227 | visits pages 1 to 11 in increasing order, and appends each page's records, numbered from 1 on every page |

## Left out

- Browser and driver plumbing: Chrome options, driver start-up, the tutorial
  tab, navigation, hovering, clicking, `WebDriverWait` and `time.sleep`. Their
  results are inputs: `Listing.panelOpened`, `Listing.closed`, and the
  listings a page shows (`pageAt`).
- Clipboard access (`pyperclip.paste`): the copied supplier URL is an input
  on each table row (`TableRow.copiedUrl`).
- Python's `float(...)`, `int(...)` and `str(float)` are parameters
  (`Conversions`). The model does not describe which texts they accept
  (`1e3`, `inf`, `_` separators) or how floats round and print. Prices are
  exact reals, and 0.89 is exact.
- Output.ResultFile: a value that contains a newline would split one logical
  line into several physical lines. Failure to open or write the file is not
  modelled.
- Utils.HoverAndClickIcons and SearchCoupang.HoverAndClickIcons return the
  final counter so that the contract can state it; the Python functions
  return nothing.
- SearchCoupang.SearchPages: `driver.quit()` in the `finally` block, and the
  pause between pages, are not modelled. An exception escaping the page loop
  is not modelled either. It takes the search parameters as an argument
  (`main` fixes them, see `Defaults`), and it returns the visited URLs so
  that the contract can state them; Python's `main` returns nothing.
- main.py runs the same page loop and URL template over utils.py's
  `hover_and_click_icons`, without the pause between pages; it is not
  modelled.
- The `print` in each `except` block (utils.py:144, utils.py:219,
  search_coupang.py:138, search_coupang.py:203) is dropped: a skipped row,
  card or product becomes `None` or `Skipped`, and no message is produced.
- `get_increment` is modelled with its table only. Nothing calls it, and
  there is no adaptive price sweep: every page uses the fixed price range.
  The product numbering restarts at 1 on every page, because each page calls
  `hover_and_click_icons` with its default start.
- There is no parser for the output text, and titles are written unescaped,
  so no round trip from the file back to records is stated.
- The commented-out sort by sales volume is not modelled.
