# Shopify invoice generator — a Dafny model

This project models `ShopifyInvoiceGenerator` from `generador_facturas.py`. The generator
fetches a Shopify order and writes a Word invoice for it, in Spanish and in Colombian pesos. It
can also upload the invoice to OneDrive through Microsoft Graph. The model covers:

- **`format_currency`**: `f"${amount:,.0f} COP"`, for whole amounts of pesos
  (`Formatting`: digits, thousands grouping, and the value the digits stand for).
- **`format_date`**: `datetime.fromisoformat(s.replace('Z', '+00:00')).strftime('%d/%m/%Y')`,
  which falls back to the input itself (`DateFormat`). Accepted inputs are the `date-time`
  grammar of section 5.6 of RFC 3339, within Python's `datetime` limits, with two adjustments
  that follow `fromisoformat`: the offset may be absent, giving a naive `datetime`, and only an
  upper-case "Z" counts as UTC. A lower-case "z" is left alone by `replace`, so such a text does
  not parse and is returned unchanged. Both directions are proved: every rendered date-time
  parses back to itself, and every text that parses is the rendering of its value, up to the case of the "T" separator.
- **The due date**: today plus 30 days, computed on a proleptic Gregorian calendar whose day
  ordinals match Python's `toordinal` (`Calendar`). Passing 9999-12-31 raises
  `OverflowError: date value out of range`.
- **The content of `create_word_document`** (`InvoiceContent`, plus `BuildInvoice` and the
  `Add…` methods in `Generator`):
  - the document is a sequence of blocks, each a paragraph or a table of cells of paragraphs;
  - `InvoiceBlocks` specifies the blocks as a function, so they can be reasoned about;
  - `Document` is the object the code fills in step by step;
  - a missing required field fails with Python's `str(KeyError(k))`, which is `'k'`, and the
    first such field wins, in the order the code reads them.
- **The result shaping of `generate_invoice`** (`Generator.InvoiceGenerator.GenerateInvoice`):
  - success gives `Generated(order_number, local_file_path, cloud_info)`;
  - every error gives `Failed(str(e))`.
- **The token cache of `upload_to_onedrive`**:
  - the token endpoint is asked only when the cached `access_token` is empty;
  - `tokenRequests` counts those requests, so the cache's effect can be observed.

Local files are a `Disk` class (a map from path to content). OneDrive is a `Drive` class. The
shop's orders and the replies of the token and upload endpoints are a `Services` value. The
clock becomes the `today` and `timestamp` parameters.

**The upload guard.** `generate_invoice` uploads only when `all(self.office_config.values())`
holds. That dictionary also holds the cached `access_token`, and the token starts as `None`. It
is set only inside `upload_to_onedrive`, which is reached only through that same guard. So a
freshly constructed generator never uploads through `generate_invoice`. The model keeps the
guard as written: `Generator.FreshGeneratorNeverUploads` states this consequence, and
`Generator.PresetTokenUploads` shows that the upload path runs once a token is already cached.

## Model

| member | source | states |
|---|---|---|
| Generator.InvoiceGenerator.constructor | generador_facturas.py:13-33 | the shop domain and token are taken from the two required keys, the API version is "2023-10", the Office credentials are `config.get` values, the cached token starts empty, and each company text has its default |
| Generator.InvoiceGenerator.GetOfficeAccessToken | generador_facturas.py:44-65 | the result is the endpoint's reply; a token is cached only on success, and one request is counted each time |
| Generator.InvoiceGenerator.GetShopifyOrder | generador_facturas.py:67-83 | an id the shop answers for gives its order, or the error text of a fetch that failed otherwise (another HTTP status, a connection failure, a bad body, no `order`); an unknown id gives the 404 error text naming the order URL with API version 2023-10 |
| Formatting.FormatCurrencyMeaning | generador_facturas.py:85-90 | the currency text is "$", then a minus exactly for negative amounts, then well-grouped digits, then " COP"; with the commas removed, the digits are the decimal digits of the magnitude and stand for its value |
| Formatting.FormatCurrency | generador_facturas.py:85-90 | the currency text of a whole amount of pesos; what it means is stated by `Formatting.FormatCurrencyMeaning` |
| Formatting.CurrencyFrame | generador_facturas.py:88 | the text around the grouped digits is exactly "$", an optional "-", and " COP", and the minus is there exactly when the amount is negative |
| Formatting.Digits | generador_facturas.py:88 | the decimal digits of a number: digits only, with no leading zero |
| Formatting.DigitsValue | generador_facturas.py:88 | reading the decimal digits of `n` back gives `n` |
| Formatting.GroupThousandsRemoveCommas | generador_facturas.py:88 | removing the commas from the grouped digits gives back the original digits |
| Formatting.GroupThousandsWellGrouped | generador_facturas.py:88 | the grouping puts the commas exactly every three digits, counted from the right, with a first group of one to three digits |
| Formatting.IntToStringInjective | generador_facturas.py:215 | `str` on integers is injective: two integers written the same are equal |
| Formatting.GroupThousandsLength | generador_facturas.py:88 | the grouped text is longer than the digits by exactly one comma per full group of three after the first |
| DateFormat.ParseDateTime | generador_facturas.py:95 | a string that parses yields a date-time whose date lies in `datetime`'s range (years 1 to 9999, a real day of the month), whose hour, minute and second lie in 0-23, 0-59 and 0-59, whose fraction is digits and whose offset is within range |
| DateFormat.ReplaceZ | generador_facturas.py:95 | `replace('Z', '+00:00')`; what it does is stated by `DateFormat.ReplaceZOfZ`, `DateFormat.ReplaceZNoZ` and `DateFormat.ReplaceZAppend`, which together fix it on every text, and by `DateFormat.ReplaceZRender` for rendered date-times |
| DateFormat.ReplaceZOfZ | generador_facturas.py:95 | an upper-case "Z" becomes "+00:00" |
| DateFormat.ReplaceZRender | generador_facturas.py:95 | replacing Z in a rendered date-time gives the rendering of the same date-time with a "Z" offset turned into "+00:00" |
| DateFormat.ReplaceZNoZ | generador_facturas.py:95 | a text with no upper-case Z is left unchanged by the replacement |
| DateFormat.ReplaceZAppend | generador_facturas.py:95 | the replacement works piece by piece: that of a concatenation is the concatenation of the replacements |
| DateFormat.RenderOfParsed | generador_facturas.py:95 | the converse of `DateFormat.ParseRender`: a text that parses is the RFC 3339 rendering of its value, up to the case of the "T" separator; so the parser accepts exactly the rendered date-times |
| DateFormat.ParseRender | generador_facturas.py:95 | parsing the RFC 3339 text of any well-formed date-time gives back that date-time |
| DateFormat.FormatDMY | generador_facturas.py:96 | `%d/%m/%Y` is ten characters, slashes at positions 2 and 5, and the two-digit day, two-digit month and four-digit year groups denote exactly the date's day, month and year |
| DateFormat.FormatDate | generador_facturas.py:92-98 | `format_date`; what it means is stated by `DateFormat.FormatDateMeaning` |
| DateFormat.FormatDateMeaning | generador_facturas.py:92-98 | `format_date` returns its input exactly when the input does not parse after replacing every Z by "+00:00"; otherwise it gives the written date part as DD/MM/YYYY, with no time-zone conversion. The texts that parse are exactly the renderings of date-times, up to the case of the "T" separator (`DateFormat.ParseRender`, `DateFormat.RenderOfParsed`) |
| DateFormat.FormatDateOfRender | generador_facturas.py:92-98 | any well-formed date-time, offset "Z" included, is printed as its own calendar date |
| DateFormat.FormatDateExample | generador_facturas.py:92-98 | "2024-03-05T10:00:00Z" is printed as "05/03/2024" |
| DateFormat.LowerCaseZuluKept | generador_facturas.py:95-98 | a date-time head followed by a lower-case "z" is not parsed by `fromisoformat` and comes back unchanged |
| DateFormat.LowerCaseZuluExample | generador_facturas.py:95-98 | "2024-03-05T10:00:00z" comes back unchanged |
| DateFormat.NaiveExample | generador_facturas.py:95-96 | "2024-03-05T10:00:00", with no offset, is printed as "05/03/2024" |
| DateFormat.FormatDateFallbackExample | generador_facturas.py:97-98 | "not a date" comes back unchanged |
| DateFormat.DueDate | generador_facturas.py:146 | a due date that exists is a valid `datetime` date |
| DateFormat.DueDateMeaning | generador_facturas.py:146 | the due date is the date 30 days after today, counted by day ordinal; it fails with "date value out of range" exactly when that passes 9999-12-31 |
| Calendar.AddDaysOrdinal | generador_facturas.py:146 | adding `n` days to a valid date gives a valid date whose ordinal is `n` higher |
| Calendar.AddDaysExactly | generador_facturas.py:146 | the date `n` days later is the only valid date with that ordinal |
| Calendar.OrdinalInjective | generador_facturas.py:146 | two valid dates with the same ordinal are equal |
| Calendar.NextDayIsNextOrdinal | generador_facturas.py:146 | the next day of a valid date is valid and has the next ordinal |
| Calendar.DaysInMonth | generador_facturas.py:146 | months have 28 to 31 days, and February has 29 exactly in Gregorian leap years |
| Orders.KeyErrorNamesKey | generador_facturas.py:144 | the `str(KeyError(k))` message identifies its key: two keys with the same message are the same key |
| InvoiceContent.BillToCell | generador_facturas.py:160-170 | the title, then, exactly for a present and non-empty customer, the name line and e-mail; the phone comes fourth, exactly when it is present and non-empty; the cell has exactly 1, 3 or 4 paragraphs accordingly |
| InvoiceContent.ShipToCell | generador_facturas.py:173-187 | the title, then either the placeholder (exactly when the address is missing or empty) or name, address1, address2 (only when non-empty), "city, province" and "zip - country" |
| InvoiceContent.ProductName | generador_facturas.py:209-211 | the title, with the variant on a second line exactly when the variant is non-empty |
| InvoiceContent.ItemRow | generador_facturas.py:207-217 | a row exists exactly when title, quantity and price are present; otherwise the error is the KeyError of the first one missing |
| InvoiceContent.ItemRowCells | generador_facturas.py:207-217 | the five cells: product, SKU ("N/A" only for a missing key), quantity, unit price, and price times quantity in the currency format |
| InvoiceContent.ItemRows | generador_facturas.py:207 | the rows for all items, one per item |
| InvoiceContent.ItemRowsAllOk | generador_facturas.py:207-217 | the rows exist exactly when every item has its keys, and then row `i` is item `i`'s row |
| InvoiceContent.ItemRowsFirstError | generador_facturas.py:207-217 | when earlier items are fine and item `i` is not, item `i`'s KeyError is the error |
| InvoiceContent.CompanyCell | generador_facturas.py:121-131 | the company cell: name, address, "Tel: " phone, "Email: " e-mail, tax id; its place in the document is stated by `InvoiceContent.InvoiceLayout` |
| InvoiceContent.InvoiceCell | generador_facturas.py:133-148 | the invoice cell: "FACTURA", then one paragraph with the order number, the date and the due date on three lines; its place is stated by `InvoiceContent.InvoiceLayout` |
| InvoiceContent.FooterBlocks | generador_facturas.py:258-265 | the footer: an empty paragraph, the thanks line with the company name, and the notice; its place is stated by `InvoiceContent.InvoiceLayout` |
| InvoiceContent.TotalsCell | generador_facturas.py:233-256 | the totals cell; what it holds is stated by `InvoiceContent.TotalsCellMeaning` |
| InvoiceContent.TotalsCellMeaning | generador_facturas.py:228-256 | Subtotal, then Envío only for positive shipping, Impuestos only for positive tax, then TOTAL as given; no other line starts with those captions |
| InvoiceContent.InvoiceBlocks | generador_facturas.py:100-271 | the document fails exactly when a required field is missing or the due date overflows, with the first such error in the order the code reads the fields |
| InvoiceContent.InvoiceLayout | generador_facturas.py:115-151 | a rendered invoice has ten blocks: a header with the company texts, the order number, the formatted creation date and the due date; separators; then the footer |
| InvoiceContent.InvoiceCustomerTable | generador_facturas.py:153-189 | the second table holds the bill-to cell of the customer and the ship-to cell of the address, and shows the placeholder exactly when there is no address |
| InvoiceContent.InvoiceItemTable | generador_facturas.py:191-219 | the item table is the fixed header row, then exactly one row per line item, in input order |
| InvoiceContent.ItemsTableRows | generador_facturas.py:196-217 | the rows of an items table are the header row, then item `i`'s row at position `i + 1` |
| InvoiceContent.InvoiceTotalsTable | generador_facturas.py:221-256 | the totals table is an empty cell beside the totals cell of the subtotal, the shipping amount (0 when the `total_shipping_price_set`, `shop_money` or `amount` level is missing), the tax (0 when missing) and the total |
| InvoiceContent.Document.constructor | generador_facturas.py:104 | a new document has an empty body |
| InvoiceContent.Document.AddParagraph | generador_facturas.py:151 | adds one paragraph at the end of the body and changes nothing else |
| InvoiceContent.Document.AddTable | generador_facturas.py:115 | adds one table at the end of the body and changes nothing else |
| InvoiceContent.Document.AddRow | generador_facturas.py:208 | adds one row to the last table of the body and changes nothing else |
| Generator.AddHeaderSection | generador_facturas.py:115-151 | adds the header table and the separator, or reports the header's error (order number, creation date, due date) |
| Generator.AddCustomerSection | generador_facturas.py:153-204 | adds the customer table, the separator and the header-only item table |
| Generator.BillToLines | generador_facturas.py:160-170 | fills the bill-to cell paragraph by paragraph, ending as `BillToCell` |
| Generator.ShipToLines | generador_facturas.py:173-187 | fills the ship-to cell paragraph by paragraph, ending as `ShipToCell` |
| Generator.ItemCells | generador_facturas.py:208-217 | reads one item's keys in the order the code does, ending as `ItemRow` |
| Generator.AddItemRows | generador_facturas.py:207-217 | adds the items' rows one by one; it fails, at the first item with a missing key, exactly when `ItemRows` fails, and otherwise ends with the item table of all the rows |
| Generator.TotalsLines | generador_facturas.py:237-256 | fills the totals cell line by line, ending as `TotalsCell` |
| Generator.AddBottomSection | generador_facturas.py:219-265 | adds the totals table and the footer, or reports the missing subtotal or total |
| Generator.BuildInvoice | generador_facturas.py:100-265 | building the document step by step gives exactly `InvoiceBlocks` |
| Generator.InvoiceGenerator.CreateWordDocument | generador_facturas.py:100-275 | on success, exactly one file is written, at `<filename>.docx`, holding `InvoiceBlocks`, and its path is returned; on failure the disk is unchanged |
| Storage.Disk.Save | generador_facturas.py:268-269 | writes one file and changes no other |
| Storage.Disk.Read | generador_facturas.py:284-285 | returns the file's content, or the `FileNotFoundError` message for a missing path |
| Storage.Disk.Remove | generador_facturas.py:333 | deletes one file, or reports a missing path and changes nothing |
| Storage.Drive.Put | generador_facturas.py:295-296 | stores one file in the drive and changes no other |
| Generator.InvoiceFileName | generador_facturas.py:317 | `Factura_<order number>_<timestamp>`; `Generator.InvoiceFileNamesDiffer` states its partner property |
| Generator.InvoiceFileNamesDiffer | generador_facturas.py:317 | two invoices of the same order written at different seconds get different file names |
| Generator.InvoiceGenerator.OfficeConfigured | generador_facturas.py:20-25 | `all(office_config.values())`, the upload guard of line 326: the three credentials and the cached token are all non-empty |
| Generator.InvoiceGenerator.UploadToOneDrive | generador_facturas.py:277-308 | a token is requested only when none is cached; a token failure, a missing file or an upload failure is returned as that error and leaves the drive unchanged; a successful upload stores the local file as `<filename>.docx` |
| Generator.InvoiceGenerator.GenerateInvoice | generador_facturas.py:310-344 | an unknown order, a failed fetch, a missing order number or a missing field gives `Failed` with the error text and writes nothing; otherwise the file `Factura_<n>_<ts>.docx` is written; it is uploaded only when asked and every Office setting, the token included, is non-empty; the local copy is removed after a successful upload when it is not to be kept; `local_file_path` is `None` exactly when it is not to be kept |
| Generator.FreshGeneratorNeverUploads | generador_facturas.py:20-25 | with a newly constructed generator, a successful run never uploads, leaves the drive unchanged, and reports a local path exactly when asked to keep one |
| Generator.PresetTokenUploads | generador_facturas.py:326-334 | with all settings and a cached token, a run stores the invoice in the drive, keeps the local file exactly when asked to, and reports the upload's info |
| Generator.MissingOrderFails | generador_facturas.py:67-83 | an order id the shop does not know fails with the 404 text naming the order URL, and writes no file |
| Generator.TokenRequestedOnce | generador_facturas.py:280-281 | two uploads in a row ask for the token once, when the first request succeeds |

## Left out

- HTTP requests: the request headers (the `Content-Type` of the upload included), the token request body and the JSON parsing of replies are left out. The replies are given as `Services`. A token reply that lacks `access_token` is not modelled separately; it is one more `Err` reply.
- Styling is left out: margins, column widths, fonts, bold, sizes, the table style and alignment. Only the text content is modelled.
- The `.docx` bytes are left out. A saved file holds its sequence of blocks.
- Floating point: amounts are whole pesos (`int`). `float(...)` conversion, rounding and the `:.2f` fallback branch of `format_currency` (reached only when formatting raises) are left out.
- `locale.setlocale` and its fallback are left out: they change nothing in the texts produced.
- The clock: `datetime.now()` becomes the `today` date and the `timestamp` integer, both supplied by the caller.
- The `print` logging is left out.
- `app.py` and the Flask webhook are not part of this model.
- JSON `null` values are left out: a key is either missing (`None`) or holds a string, number or dictionary. `customer` and `shipping_address` are string dictionaries.
- DateFormat.ParseDateTime: covers the RFC 3339 `date-time` form, with the offset optional, and not the other ISO 8601 forms that Python 3.11's `fromisoformat` also accepts. Left out are a date alone, week dates, a date-time separator other than "T" or "t", omitted seconds or minutes, compact forms, and offsets without a colon or with seconds. Python 3.11 is the version followed: a fraction of seconds may have any number of digits, while Python 3.10 and earlier accept only three or six digits. Second 60 and year 0 are rejected, as Python does.
- DateFormat.FormatDMY: always pads the year to four digits. Some C libraries print years below 1000 unpadded.
- Orders.ShippingAmount: the shipping amount arrives as a string in Shopify's JSON; the model takes it as an already converted integer.
- Generator.InvoiceGenerator.GenerateInvoice: a `Document.save` or `os.remove` failure caused by the file system (permissions, a full disk) is not modelled. Removal cannot fail in the model, because the file was saved just before.
