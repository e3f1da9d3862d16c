/**
 * `ShopifyInvoiceGenerator`: configuration, the cached Graph access token, the
 * order fetch, the document writer, the OneDrive upload and `generate_invoice`,
 * which turns every failure into `{success: False, error: str(e)}`.
 *
 * The remote services are not modelled as code: `Services` says what they
 * answer during one run (the orders the shop has, the reply of the token
 * endpoint, the reply of the upload), and the clock is passed in as `today`
 * and `timestamp`.
 */
module Generator {
  import opened Wrappers
  import opened Formatting
  import opened Calendar
  import opened DateFormat
  import opened Orders
  import opened InvoiceContent
  import opened Storage

  /** What the upload returns: `id`, `webUrl` and `@microsoft.graph.downloadUrl` of the new file. */
  datatype CloudInfo = CloudInfo(documentId: string, webUrl: string, downloadUrl: string)

  /**
   * The answers of the shop, the token endpoint and the upload endpoint during
   * one run. `orders` maps each order id the shop answers for to the order, or
   * to the error text of a fetch that failed otherwise than with a 404 (another
   * HTTP status, a connection failure, a body that is not JSON, a body without
   * `order`); an id missing from it is answered with a 404.
   */
  datatype Services = Services(orders: map<string, Result<Order>>, tokenReply: Result<string>, uploadReply: Result<CloudInfo>)

  /** The dictionary `generate_invoice` returns. */
  datatype InvoiceResult =
    | Generated(orderNumber: string, localFilePath: Option<string>, cloudInfo: Option<CloudInfo>)
    | Failed(error: string)

  const ShopifyApiVersion := "2023-10"

  function OrderUrl(domain: string, version: string, orderId: string): string {
    "https://" + domain + "/admin/api/" + version + "/orders/" + orderId + ".json"
  }

  /** `str(e)` of the HTTPError `raise_for_status` raises for a 404 answer. */
  function NotFound(url: string): string {
    "404 Client Error: Not Found for url: " + url
  }

  /** `f"Factura_{order_number}_{int(datetime.now().timestamp())}"`, without the extension. */
  function InvoiceFileName(orderNumber: string, timestamp: int): string {
    "Factura_" + orderNumber + "_" + IntToString(timestamp)
  }

  /** Two invoices of one order written at different seconds get different file names. */
  lemma InvoiceFileNamesDiffer(orderNumber: string, t1: int, t2: int)
    requires t1 != t2
    ensures InvoiceFileName(orderNumber, t1) != InvoiceFileName(orderNumber, t2)
  {
    var prefix := "Factura_" + orderNumber + "_";
    if InvoiceFileName(orderNumber, t1) == InvoiceFileName(orderNumber, t2) {
      assert IntToString(t1) == InvoiceFileName(orderNumber, t1)[|prefix|..];
      assert IntToString(t2) == InvoiceFileName(orderNumber, t2)[|prefix|..];
      IntToStringInjective(t1, t2);
    }
  }

  /** `config.get(key)`. */
  function OptionalSetting(config: map<string, string>, key: string): (r: Option<string>)
    ensures r.Some? <==> key in config
    ensures r.Some? ==> r.value == config[key]
  {
    if key in config then Some(config[key]) else None
  }

  /** The company texts, each with its default when the key is missing. */
  function CompanyFrom(config: map<string, string>): Company {
    Company(Get(config, "company_name", "Tu Empresa"),
            Get(config, "company_address", "Dirección de tu empresa"),
            Get(config, "company_phone", "Teléfono"),
            Get(config, "company_email", "email@empresa.com"),
            Get(config, "company_tax_id", "NIT/RUT"))
  }

  class InvoiceGenerator {
    const shopDomain: string
    const shopifyAccessToken: string
    const apiVersion: string
    const clientId: Option<string>
    const clientSecret: Option<string>
    const tenantId: Option<string>
    /** `office_config['access_token']`, the cached Graph token. */
    var accessToken: Option<string>
    /** How many times the token endpoint has been asked for a token. */
    var tokenRequests: nat
    const company: Company

    /** `__init__`: the two shop keys are required; everything else has a default. */
    constructor (config: map<string, string>)
      requires "shop_domain" in config && "shopify_access_token" in config
      ensures shopDomain == config["shop_domain"] && shopifyAccessToken == config["shopify_access_token"]
      ensures apiVersion == ShopifyApiVersion
      ensures clientId == OptionalSetting(config, "office_client_id")
      ensures clientSecret == OptionalSetting(config, "office_client_secret")
      ensures tenantId == OptionalSetting(config, "office_tenant_id")
      ensures accessToken == None && tokenRequests == 0
      ensures company == CompanyFrom(config)
    {
      shopDomain := config["shop_domain"];
      shopifyAccessToken := config["shopify_access_token"];
      apiVersion := ShopifyApiVersion;
      clientId := OptionalSetting(config, "office_client_id");
      clientSecret := OptionalSetting(config, "office_client_secret");
      tenantId := OptionalSetting(config, "office_tenant_id");
      accessToken := None;
      tokenRequests := 0;
      company := CompanyFrom(config);
    }

    /** `all(self.office_config.values())`: the three credentials and the cached token all non-empty. */
    predicate OfficeConfigured()
      reads this
    {
      OptTruthy(clientId) && OptTruthy(clientSecret) && OptTruthy(tenantId) && OptTruthy(accessToken)
    }

    /** `get_office_access_token`: on success the token is cached, on failure nothing changes. */
    method GetOfficeAccessToken(services: Services) returns (r: Result<string>)
      modifies this`accessToken, this`tokenRequests
      ensures r == services.tokenReply
      ensures tokenRequests == old(tokenRequests) + 1
      ensures r.Ok? ==> accessToken == Some(r.value)
      ensures r.Err? ==> accessToken == old(accessToken)
    {
      tokenRequests := tokenRequests + 1;
      r := services.tokenReply;
      if r.Ok? {
        accessToken := Some(r.value);
      }
    }

    /**
     * `get_shopify_order`: the shop's record for the id, the error of a failed
     * fetch, or the 404 error naming the URL.
     */
    method GetShopifyOrder(orderId: string, services: Services) returns (r: Result<Order>)
      ensures orderId in services.orders ==> r == services.orders[orderId]
      ensures orderId !in services.orders ==> r == Err(NotFound(OrderUrl(shopDomain, apiVersion, orderId)))
    {
      if orderId in services.orders {
        r := services.orders[orderId];
      } else {
        r := Err(NotFound(OrderUrl(shopDomain, apiVersion, orderId)));
      }
    }

    /**
     * `upload_to_onedrive`: a token is requested only when none is cached;
     * then the local file is read and PUT as `<filename>.docx` in the OneDrive
     * root. Each failure is returned as the error it raises, and the drive
     * changes only when the upload succeeds.
     */
    method UploadToOneDrive(filePath: string, filename: string, services: Services, disk: Disk, drive: Drive)
      returns (r: Result<CloudInfo>)
      modifies this`accessToken, this`tokenRequests, drive
      ensures OptTruthy(old(accessToken)) ==> accessToken == old(accessToken) && tokenRequests == old(tokenRequests)
      ensures !OptTruthy(old(accessToken)) ==> tokenRequests == old(tokenRequests) + 1
      ensures !OptTruthy(old(accessToken)) && services.tokenReply.Ok? ==> accessToken == Some(services.tokenReply.value)
      ensures !OptTruthy(old(accessToken)) && services.tokenReply.Err? ==>
        r == Err(services.tokenReply.error) && accessToken == old(accessToken) && drive.files == old(drive.files)
      ensures (OptTruthy(old(accessToken)) || services.tokenReply.Ok?) && filePath !in disk.files ==>
        r == Err(NoSuchFile(filePath)) && drive.files == old(drive.files)
      ensures (OptTruthy(old(accessToken)) || services.tokenReply.Ok?) && filePath in disk.files ==>
        r == services.uploadReply &&
        drive.files == if r.Ok? then old(drive.files)[filename + ".docx" := disk.files[filePath]] else old(drive.files)
    {
      if !OptTruthy(accessToken) {
        var token := GetOfficeAccessToken(services);
        if token.Err? {
          return Err(token.error);
        }
      }
      var content := disk.Read(filePath);
      if content.Err? {
        return Err(content.error);
      }
      r := services.uploadReply;
      if r.Ok? {
        drive.Put(filename + ".docx", content.value);
      }
    }

    /**
     * `generate_invoice`: fetch the order, write the document, and upload it
     * when asked to and when every Office setting (the cached token included)
     * is non-empty; a local copy that is not to be kept is removed after a
     * successful upload. Any error becomes `Failed` with its message.
     */
    method GenerateInvoice(orderId: string, saveLocal: bool, uploadToCloud: bool, today: Date, timestamp: int,
                           services: Services, disk: Disk, drive: Drive) returns (r: InvoiceResult)
      requires InPythonRange(today)
      modifies this`accessToken, this`tokenRequests, disk, drive
      ensures accessToken == old(accessToken) && tokenRequests == old(tokenRequests)
      ensures orderId !in services.orders ==>
        r == Failed(NotFound(OrderUrl(shopDomain, apiVersion, orderId)))
        && disk.files == old(disk.files) && drive.files == old(drive.files)
      ensures orderId in services.orders && services.orders[orderId].Err? ==>
        r == Failed(services.orders[orderId].error) && disk.files == old(disk.files) && drive.files == old(drive.files)
      ensures orderId in services.orders && services.orders[orderId].Ok? && services.orders[orderId].value.orderNumber.None? ==>
        r == Failed(KeyError("order_number")) && disk.files == old(disk.files) && drive.files == old(drive.files)
      ensures orderId in services.orders && services.orders[orderId].Ok? && services.orders[orderId].value.orderNumber.Some? ==>
        var order := services.orders[orderId].value;
        var blocks := InvoiceBlocks(company, order, today);
        var path := InvoiceFileName(order.orderNumber.value, timestamp) + ".docx";
        && (blocks.Err? ==>
              r == Failed(blocks.error) && disk.files == old(disk.files) && drive.files == old(drive.files))
        && (blocks.Ok? && !(uploadToCloud && old(OfficeConfigured())) ==>
              r == Generated(order.orderNumber.value, if saveLocal then Some(path) else None, None)
              && disk.files == old(disk.files)[path := blocks.value] && drive.files == old(drive.files))
        && (blocks.Ok? && uploadToCloud && old(OfficeConfigured()) && services.uploadReply.Err? ==>
              r == Failed(services.uploadReply.error)
              && disk.files == old(disk.files)[path := blocks.value] && drive.files == old(drive.files))
        && (blocks.Ok? && uploadToCloud && old(OfficeConfigured()) && services.uploadReply.Ok? ==>
              r == Generated(order.orderNumber.value, if saveLocal then Some(path) else None, Some(services.uploadReply.value))
              && disk.files == (if saveLocal then old(disk.files)[path := blocks.value] else old(disk.files) - {path})
              && drive.files == old(drive.files)[path := blocks.value])
    {
      var fetched := GetShopifyOrder(orderId, services);
      if fetched.Err? {
        return Failed(fetched.error);
      }
      var order := fetched.value;
      if order.orderNumber.None? {
        return Failed(KeyError("order_number"));
      }
      var filename := InvoiceFileName(order.orderNumber.value, timestamp);
      var written := CreateWordDocument(order, filename, today, disk);
      if written.Err? {
        return Failed(written.error);
      }
      var localFilePath := written.value;
      var keptPath := if saveLocal then Some(localFilePath) else None;
      if uploadToCloud && OfficeConfigured() {
        var cloudInfo := UploadToOneDrive(localFilePath, filename, services, disk, drive);
        if cloudInfo.Err? {
          return Failed(cloudInfo.error);
        }
        if !saveLocal {
          var removal := disk.Remove(localFilePath);
          // the file was saved by CreateWordDocument above
          assert removal.None?;
        }
        return Generated(order.orderNumber.value, keptPath, Some(cloudInfo.value));
      }
      return Generated(order.orderNumber.value, keptPath, None);
    }

    /**
     * `create_word_document`: builds the document step by step and saves it
     * as `<filename>.docx`. On success exactly that one file is written, with
     * the content `InvoiceBlocks` describes; on failure nothing is written.
     */
    method CreateWordDocument(order: Order, filename: string, today: Date, disk: Disk) returns (r: Result<string>)
      requires InPythonRange(today)
      modifies disk
      ensures InvoiceBlocks(company, order, today).Err? ==>
        r == Err(InvoiceBlocks(company, order, today).error) && disk.files == old(disk.files)
      ensures InvoiceBlocks(company, order, today).Ok? ==>
        r == Ok(filename + ".docx") && disk.files == old(disk.files)[filename + ".docx" := InvoiceBlocks(company, order, today).value]
    {
      var blocks := BuildInvoice(company, order, today);
      if blocks.Err? {
        return Err(blocks.error);
      }
      var path := filename + ".docx";
      disk.Save(path, blocks.value);
      return Ok(path);
    }
  }

  /**
   * The building part of `create_word_document`: a new document, filled in
   * the order the code adds its parts, stopping at the first missing field.
   */
  method BuildInvoice(c: Company, order: Order, today: Date) returns (r: Result<seq<Block>>)
    requires InPythonRange(today)
    ensures r == InvoiceBlocks(c, order, today)
  {
    var doc := new Document();
    ghost var start := doc.blocks;
    var failure := AddHeaderSection(doc, c, order, today);
    if failure.Some? {
      return Err(failure.value);
    }
    ghost var withHeader := doc.blocks;
    AddCustomerSection(doc, order);
    ghost var withCustomer := doc.blocks;
    if order.lineItems.None? {
      return Err(KeyError("line_items"));
    }
    failure := AddItemRows(doc, order.lineItems.value);
    if failure.Some? {
      return Err(failure.value);
    }
    ghost var withItems := doc.blocks;
    failure := AddBottomSection(doc, c, order);
    if failure.Some? {
      return Err(failure.value);
    }
    BuildOrder(start, withHeader, withCustomer, withItems, doc.blocks,
               HeaderTable(c, order, today), Paragraph(""), CustomerTable(order), ItemsTable([]),
               ItemsTable(ItemRows(order.lineItems.value).value), TotalsTable(order), FooterBlocks(c));
    return Ok(doc.blocks);
  }

  /** The order the builder adds its blocks in gives the document's block list. */
  lemma BuildOrder<T>(s0: seq<T>, s1: seq<T>, s2: seq<T>, s3: seq<T>, s4: seq<T>,
                      header: T, gap: T, customer: T, emptyItems: T, items: T, totals: T, footer: seq<T>)
    requires s0 == [] && s1 == s0 + [header, gap] && s2 == s1 + [customer, gap, emptyItems]
    requires s3 == s2[..|s2| - 1] + [items] && s4 == s3 + [gap, totals] + footer
    ensures s4 == [header, gap, customer, gap, items, gap, totals] + footer
  {
    assert s2[..|s2| - 1] == [header, gap, customer, gap];
  }

  /** The header table (company, order number, dates) and the separator after it. */
  method AddHeaderSection(doc: Document, c: Company, o: Order, today: Date) returns (failure: Option<string>)
    requires InPythonRange(today)
    modifies doc
    ensures failure == HeaderError(o, today)
    ensures failure.None? ==> doc.blocks == old(doc.blocks) + [HeaderTable(c, o, today), Paragraph("")]
  {
    if o.orderNumber.None? {
      return Some(KeyError("order_number"));
    }
    if o.createdAt.None? {
      return Some(KeyError("created_at"));
    }
    var due := DueDate(today);
    if due.Err? {
      return Some(due.error);
    }
    doc.AddTable([[CompanyCell(c), InvoiceCell(o.orderNumber.value, FormatDate(o.createdAt.value), FormatDMY(due.value))]]);
    doc.AddParagraph("");
    failure := None;
  }

  /** The customer table, its separator, and the items table with its header row only. */
  method AddCustomerSection(doc: Document, o: Order)
    modifies doc
    ensures doc.blocks == old(doc.blocks) + [CustomerTable(o), Paragraph(""), ItemsTable([])]
  {
    var billTo := BillToLines(o.customer);
    var shipTo := ShipToLines(o.shippingAddress);
    doc.AddTable([[billTo, shipTo]]);
    doc.AddParagraph("");
    doc.AddTable([ItemHeaderRow()]);
    assert [ItemHeaderRow()] + [] == [ItemHeaderRow()];
  }

  /**
   * The last part of `create_word_document`: the separator after the items,
   * the totals table and the footer.
   */
  method AddBottomSection(doc: Document, c: Company, o: Order) returns (failure: Option<string>)
    modifies doc
    ensures failure == TotalsError(o)
    ensures failure.None? ==> doc.blocks == old(doc.blocks) + [Paragraph(""), TotalsTable(o)] + FooterBlocks(c)
  {
    doc.AddParagraph("");
    if o.subtotalPrice.None? {
      return Some(KeyError("subtotal_price"));
    }
    var subtotal := o.subtotalPrice.value;
    var taxes := o.totalTax.GetOr(0);
    var shipping := ShippingAmount(o);
    if o.totalPrice.None? {
      return Some(KeyError("total_price"));
    }
    var totals := TotalsLines(subtotal, shipping, taxes, o.totalPrice.value);
    doc.AddTable([[EmptyCell, totals]]);
    doc.AddParagraph("");
    doc.AddParagraph(FooterThanks + c.name);
    doc.AddParagraph(FooterNotice);
    failure := None;
  }

  /** The "FACTURAR A:" cell, one paragraph at a time. */
  method BillToLines(customer: Option<Dict>) returns (c: Cell)
    ensures c == BillToCell(customer)
  {
    c := [BillToTitle];
    if DictTruthy(customer) {
      var d := customer.value;
      c := c + [NameLine(d)];
      c := c + [Get(d, "email", "")];
      if Truthy(Get(d, "phone", "")) {
        c := c + [d["phone"]];
      }
    }
  }

  /** The "ENVIAR A:" cell, one paragraph at a time. */
  method ShipToLines(address: Option<Dict>) returns (c: Cell)
    ensures c == ShipToCell(address)
  {
    c := [ShipToTitle];
    if DictTruthy(address) {
      var d := address.value;
      c := c + [NameLine(d)];
      c := c + [Get(d, "address1", "")];
      if Truthy(Get(d, "address2", "")) {
        c := c + [d["address2"]];
      }
      c := c + [Get(d, "city", "") + ", " + Get(d, "province", "")];
      c := c + [Get(d, "zip", "") + " - " + Get(d, "country", "")];
    } else {
      c := c + [NoShippingInfo];
    }
  }

  /** The totals cell, one paragraph at a time. */
  method TotalsLines(subtotal: int, shipping: int, taxes: int, total: int) returns (c: Cell)
    ensures c == TotalsCell(subtotal, shipping, taxes, total)
  {
    c := [""];
    c := c + [TotalLine("Subtotal", subtotal)];
    if shipping > 0 {
      c := c + [TotalLine("Envío", shipping)];
    }
    if taxes > 0 {
      c := c + [TotalLine("Impuestos", taxes)];
    }
    c := c + [TotalLine("TOTAL", total)];
  }

  /** The body of the loop over `line_items`: the five cells of one item's row. */
  method ItemCells(item: LineItem) returns (r: Result<Row>)
    ensures r == ItemRow(item)
  {
    if item.title.None? {
      return Err(KeyError("title"));
    }
    var productName := item.title.value;
    if OptTruthy(item.variantTitle) {
      productName := productName + "\n" + item.variantTitle.value;
    }
    var sku := item.sku.GetOr("N/A");
    if item.quantity.None? {
      return Err(KeyError("quantity"));
    }
    if item.price.None? {
      return Err(KeyError("price"));
    }
    var quantity, price := item.quantity.value, item.price.value;
    ItemRowCells(item);
    return Ok([[productName], [sku], [IntToString(quantity)], [FormatCurrency(price)], [FormatCurrency(price * quantity)]]);
  }

  /**
   * The loop over `line_items`: appends one row per item to the items table,
   * the last block of `doc`, and stops at the first item without a required key.
   */
  method AddItemRows(doc: Document, items: seq<LineItem>) returns (failure: Option<string>)
    requires |doc.blocks| > 0 && doc.blocks[|doc.blocks| - 1] == ItemsTable([])
    modifies doc
    ensures failure.Some? <==> ItemRows(items).Err?
    ensures failure.Some? ==> failure.value == ItemRows(items).error
    ensures failure.None? ==> doc.blocks == old(doc.blocks[..|doc.blocks| - 1]) + [ItemsTable(ItemRows(items).value)]
  {
    ghost var before := doc.blocks[..|doc.blocks| - 1];
    assert doc.blocks == before + [doc.blocks[|doc.blocks| - 1]];
    assert [ItemHeaderRow()] + [] == [ItemHeaderRow()];
    ghost var rows: seq<Row> := [];
    var i := 0;
    while i < |items|
      invariant 0 <= i <= |items|
      invariant |rows| == i
      invariant forall j :: 0 <= j < i ==> ItemRow(items[j]) == Ok(rows[j])
      invariant doc.blocks == before + [Table([ItemHeaderRow()] + rows)]
    {
      var row := ItemCells(items[i]);
      if row.Err? {
        ItemRowsFirstError(items, i);
        return Some(row.error);
      }
      assert doc.blocks[..|doc.blocks| - 1] == before;
      doc.AddRow(row.value);
      assert ([ItemHeaderRow()] + rows) + [row.value] == [ItemHeaderRow()] + (rows + [row.value]);
      rows := rows + [row.value];
      i := i + 1;
    }
    ItemRowsAllOk(items);
    assert rows == ItemRows(items).value;
    failure := None;
  }



  /**
   * A generator built from a configuration starts without a cached token, so
   * `all(office_config.values())` is false and asking for a cloud copy never
   * uploads: the result has no cloud information and the drive stays as it was.
   */
  method FreshGeneratorNeverUploads(config: map<string, string>, orderId: string, saveLocal: bool, today: Date,
                                    timestamp: int, services: Services, localFiles: map<string, seq<Block>>,
                                    cloudFiles: map<string, seq<Block>>)
    returns (r: InvoiceResult, cloudAfter: map<string, seq<Block>>)
    requires "shop_domain" in config && "shopify_access_token" in config
    requires InPythonRange(today)
    ensures r.Generated? ==> r.cloudInfo.None? && (r.localFilePath.Some? <==> saveLocal)
    ensures cloudAfter == cloudFiles
  {
    var generator := new InvoiceGenerator(config);
    var disk := new Disk(localFiles);
    var drive := new Drive(cloudFiles);
    r := generator.GenerateInvoice(orderId, saveLocal, true, today, timestamp, services, disk, drive);
    cloudAfter := drive.files;
  }

  /**
   * With a token already cached (set from outside, as a caller of the Python
   * class could) and all credentials present, a successful upload of a
   * complete order puts the document on the drive, and a local copy that is
   * not to be kept is removed.
   */
  method PresetTokenUploads(config: map<string, string>, token: string, orderId: string, saveLocal: bool, today: Date,
                            timestamp: int, services: Services, localFiles: map<string, seq<Block>>)
    returns (r: InvoiceResult, localAfter: map<string, seq<Block>>, cloudAfter: map<string, seq<Block>>)
    requires "shop_domain" in config && "shopify_access_token" in config
    requires OptTruthy(OptionalSetting(config, "office_client_id")) && OptTruthy(OptionalSetting(config, "office_client_secret"))
    requires OptTruthy(OptionalSetting(config, "office_tenant_id")) && Truthy(token)
    requires InPythonRange(today)
    requires orderId in services.orders && services.orders[orderId].Ok? && services.orders[orderId].value.orderNumber.Some?
    requires InvoiceBlocks(CompanyFrom(config), services.orders[orderId].value, today).Ok? && services.uploadReply.Ok?
    ensures var order := services.orders[orderId].value;
      var path := InvoiceFileName(order.orderNumber.value, timestamp) + ".docx";
      && r == Generated(order.orderNumber.value, if saveLocal then Some(path) else None, Some(services.uploadReply.value))
      && cloudAfter == map[path := InvoiceBlocks(CompanyFrom(config), order, today).value]
      && (path in localAfter <==> saveLocal)
  {
    var generator := new InvoiceGenerator(config);
    generator.accessToken := Some(token);
    var disk := new Disk(localFiles);
    var drive := new Drive(map[]);
    r := generator.GenerateInvoice(orderId, saveLocal, true, today, timestamp, services, disk, drive);
    localAfter := disk.files;
    cloudAfter := drive.files;
  }

  /** Asking for an order the shop does not have fails with the 404 message and writes no file. */
  method MissingOrderFails(config: map<string, string>, orderId: string, saveLocal: bool, uploadToCloud: bool,
                           today: Date, timestamp: int, services: Services, localFiles: map<string, seq<Block>>)
    returns (r: InvoiceResult, localAfter: map<string, seq<Block>>)
    requires "shop_domain" in config && "shopify_access_token" in config
    requires InPythonRange(today) && orderId !in services.orders
    ensures r == Failed(NotFound("https://" + config["shop_domain"] + "/admin/api/2023-10/orders/" + orderId + ".json"))
    ensures localAfter == localFiles
  {
    var generator := new InvoiceGenerator(config);
    var disk := new Disk(localFiles);
    var drive := new Drive(map[]);
    r := generator.GenerateInvoice(orderId, saveLocal, uploadToCloud, today, timestamp, services, disk, drive);
    localAfter := disk.files;
  }

  /**
   * The token cache: two uploads in a row ask the token endpoint once, the
   * second one reusing the token the first one stored.
   */
  method TokenRequestedOnce(config: map<string, string>, services: Services, path: string, content: seq<Block>)
    returns (first: Result<CloudInfo>, second: Result<CloudInfo>, requests: nat)
    requires "shop_domain" in config && "shopify_access_token" in config
    requires services.tokenReply.Ok? && Truthy(services.tokenReply.value)
    ensures requests == 1
    ensures first == services.uploadReply && second == services.uploadReply
  {
    var generator := new InvoiceGenerator(config);
    var disk := new Disk(map[path := content]);
    var drive := new Drive(map[]);
    first := generator.UploadToOneDrive(path, "Factura", services, disk, drive);
    second := generator.UploadToOneDrive(path, "Factura", services, disk, drive);
    requests := generator.tokenRequests;
  }
}
