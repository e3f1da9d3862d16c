/**
 * The text content of the invoice `create_word_document` writes, as a
 * sequence of blocks: body paragraphs and tables whose cells are sequences of
 * paragraphs. Styling (fonts, widths, alignment, margins) is not part of it.
 *
 * The document is, in order: the header table (company | invoice data), an
 * empty paragraph, the customer table (bill to | ship to), an empty paragraph,
 * the item table, an empty paragraph, the totals table (empty | totals), an
 * empty paragraph and the two footer paragraphs.
 */
module InvoiceContent {
  import opened Wrappers
  import opened Formatting
  import opened Calendar
  import opened DateFormat
  import opened Orders

  /** The paragraphs of one table cell; a fresh cell holds one empty paragraph. */
  type Cell = seq<string>

  type Row = seq<Cell>

  datatype Block = Paragraph(text: string) | Table(rows: seq<Row>)

  /** The `company_info` texts. */
  datatype Company = Company(name: string, address: string, phone: string, email: string, taxId: string)

  const BillToTitle := "FACTURAR A:"
  const ShipToTitle := "ENVIAR A:"
  const NoShippingInfo := "Información de envío no disponible"
  const EmptyCell: Cell := [""]
  const FooterThanks := "Gracias por su compra | "
  const FooterNotice := "Esta es una factura generada automáticamente"

  /** The column titles of the item table. */
  function ItemHeaderRow(): (row: Row)
    ensures |row| == 5
  {
    [["Producto"], ["SKU"], ["Cantidad"], ["Precio Unit."], ["Total"]]
  }

  /** Left header cell: the company name, then address, phone, e-mail and tax id. */
  function CompanyCell(c: Company): Cell {
    [c.name, c.address, "Tel: " + c.phone, "Email: " + c.email, c.taxId]
  }

  /** Right header cell: the word FACTURA, then one paragraph of three lines. */
  function InvoiceCell(orderNumber: string, dateText: string, dueText: string): Cell {
    ["FACTURA", "No. Orden: " + orderNumber + "\n" + "Fecha: " + dateText + "\n" + "Vencimiento: " + dueText]
  }

  /** "first last" from a dictionary, each part '' when missing. */
  function NameLine(d: Dict): string {
    Get(d, "first_name", "") + " " + Get(d, "last_name", "")
  }

  /**
   * The bill-to cell: its title, then for a present, non-empty customer the name
   * line and the e-mail, and the phone only when it is present and non-empty.
   */
  function BillToCell(customer: Option<Dict>): (c: Cell)
    ensures |c| >= 1 && c[0] == BillToTitle
    ensures !DictTruthy(customer) <==> c == [BillToTitle]
    ensures DictTruthy(customer) ==> |c| >= 3 && c[1] == NameLine(customer.value) && c[2] == Get(customer.value, "email", "")
    ensures |c| == 4 <==> DictTruthy(customer) && Truthy(Get(customer.value, "phone", ""))
    ensures |c| == 4 ==> c[3] == customer.value["phone"]
    ensures |c| == if !DictTruthy(customer) then 1 else if Truthy(Get(customer.value, "phone", "")) then 4 else 3
  {
    if DictTruthy(customer) then
      var d := customer.value;
      [BillToTitle, NameLine(d), Get(d, "email", "")] + (if Truthy(Get(d, "phone", "")) then [d["phone"]] else [])
    else [BillToTitle]
  }

  /**
   * The ship-to cell: its title, then either the placeholder (exactly when the
   * address is missing or empty) or name, address1, address2 (only when
   * non-empty), "city, province" and "zip - country".
   */
  function ShipToCell(address: Option<Dict>): (c: Cell)
    ensures |c| >= 2 && c[0] == ShipToTitle
    ensures c == [ShipToTitle, NoShippingInfo] <==> !DictTruthy(address)
    ensures DictTruthy(address) ==>
      var d := address.value;
      var extra := if Truthy(Get(d, "address2", "")) then 1 else 0;
      && |c| == 5 + extra
      && c[1] == NameLine(d)
      && c[2] == Get(d, "address1", "")
      && (extra == 1 ==> c[3] == d["address2"])
      && c[3 + extra] == Get(d, "city", "") + ", " + Get(d, "province", "")
      && c[4 + extra] == Get(d, "zip", "") + " - " + Get(d, "country", "")
  {
    if DictTruthy(address) then
      var d := address.value;
      [ShipToTitle, NameLine(d), Get(d, "address1", "")]
        + (if Truthy(Get(d, "address2", "")) then [d["address2"]] else [])
        + [Get(d, "city", "") + ", " + Get(d, "province", ""), Get(d, "zip", "") + " - " + Get(d, "country", "")]
    else [ShipToTitle, NoShippingInfo]
  }

  /** The product cell text: the title, and the variant on a second line when it is non-empty. */
  function ProductName(title: string, variant: Option<string>): (s: string)
    ensures OptTruthy(variant) ==> s == title + "\n" + variant.value
    ensures !OptTruthy(variant) ==> s == title
  {
    if OptTruthy(variant) then title + "\n" + variant.value else title
  }

  /**
   * One item row, or the KeyError of the first of title, quantity, price that is
   * missing. The SKU cell is "N/A" only for a missing key, and the last cell is
   * price times quantity in the currency format.
   */
  function ItemRow(item: LineItem): (r: Result<Row>)
    ensures r.Ok? <==> item.title.Some? && item.quantity.Some? && item.price.Some?
    ensures item.title.None? ==> r == Err(KeyError("title"))
    ensures item.title.Some? && item.quantity.None? ==> r == Err(KeyError("quantity"))
    ensures item.title.Some? && item.quantity.Some? && item.price.None? ==> r == Err(KeyError("price"))
  {
    match item.title
    case None => Err(KeyError("title"))
    case Some(title) =>
      match item.quantity
      case None => Err(KeyError("quantity"))
      case Some(quantity) =>
        match item.price
        case None => Err(KeyError("price"))
        case Some(price) =>
          Ok([[ProductName(title, item.variantTitle)], [item.sku.GetOr("N/A")], [IntToString(quantity)],
              [FormatCurrency(price)], [FormatCurrency(price * quantity)]])
  }

  /**
   * The five cells of a successful item row: product (title, and the variant on
   * a second line when non-empty), SKU ("N/A" only when the key is missing),
   * quantity, unit price, and price times quantity, both in the currency format.
   */
  lemma ItemRowCells(item: LineItem)
    requires ItemRow(item).Ok?
    ensures var row := ItemRow(item).value;
      && |row| == 5
      && row[0] == [ProductName(item.title.value, item.variantTitle)]
      && (item.sku.None? ==> row[1] == ["N/A"])
      && (item.sku.Some? ==> row[1] == [item.sku.value])
      && row[2] == [IntToString(item.quantity.value)]
      && row[3] == [FormatCurrency(item.price.value)]
      && row[4] == [FormatCurrency(item.price.value * item.quantity.value)]
  {
  }

  /** The rows for all items, in input order, or the error of the first item that has none. */
  function ItemRows(items: seq<LineItem>): (r: Result<seq<Row>>)
    ensures r.Ok? ==> |r.value| == |items|
  {
    if items == [] then Ok([])
    else
      match ItemRows(items[..|items| - 1])
      case Err(e) => Err(e)
      case Ok(rows) =>
        match ItemRow(items[|items| - 1])
        case Err(e) => Err(e)
        case Ok(row) => Ok(rows + [row])
  }

  /** The rows exist exactly when every item has its keys, and then row `i` is item `i`'s row. */
  lemma {:induction false} ItemRowsAllOk(items: seq<LineItem>)
    ensures ItemRows(items).Ok? <==> forall i :: 0 <= i < |items| ==> ItemRow(items[i]).Ok?
    ensures ItemRows(items).Ok? ==> forall i :: 0 <= i < |items| ==> ItemRows(items).value[i] == ItemRow(items[i]).value
    decreases |items|
  {
    if items != [] {
      var n := |items| - 1;
      var init := items[..n];
      ItemRowsAllOk(init);
      assert forall i :: 0 <= i < n ==> init[i] == items[i];
    }
  }

  /** When the items before `i` have their keys and item `i` does not, item `i`'s KeyError is the result. */
  lemma {:induction false} ItemRowsFirstError(items: seq<LineItem>, i: int)
    requires 0 <= i < |items| && ItemRow(items[i]).Err?
    requires forall j :: 0 <= j < i ==> ItemRow(items[j]).Ok?
    ensures ItemRows(items) == Err(ItemRow(items[i]).error)
    decreases |items|
  {
    var n := |items| - 1;
    var init := items[..n];
    assert forall j :: 0 <= j < n ==> init[j] == items[j];
    if i < n {
      ItemRowsFirstError(init, i);
    } else {
      ItemRowsAllOk(init);
    }
  }

  /** One totals paragraph, caption and amount. */
  function TotalLine(caption: string, amount: int): string {
    caption + ": " + FormatCurrency(amount)
  }

  predicate StartsWith(s: string, prefix: string) {
    |prefix| <= |s| && s[..|prefix|] == prefix
  }

  /** The totals cell, one paragraph per line. */
  function TotalsCell(subtotal: int, shipping: int, taxes: int, total: int): Cell {
    ["", TotalLine("Subtotal", subtotal)]
      + (if shipping > 0 then [TotalLine("Envío", shipping)] else [])
      + (if taxes > 0 then [TotalLine("Impuestos", taxes)] else [])
      + [TotalLine("TOTAL", total)]
  }

  /**
   * The totals cell: its untouched first paragraph, Subtotal, Envío only for a
   * positive shipping amount, Impuestos only for a positive tax, and TOTAL,
   * which shows the order's total as given and is not recomputed.
   */
  lemma TotalsCellMeaning(subtotal: int, shipping: int, taxes: int, total: int)
    ensures var c := TotalsCell(subtotal, shipping, taxes, total);
      && |c| == 3 + (if shipping > 0 then 1 else 0) + (if taxes > 0 then 1 else 0)
      && c[0] == "" && c[1] == TotalLine("Subtotal", subtotal) && c[|c| - 1] == TotalLine("TOTAL", total)
      && (shipping > 0 ==> c[2] == TotalLine("Envío", shipping))
      && (taxes > 0 ==> c[|c| - 2] == TotalLine("Impuestos", taxes))
      && (forall i :: 0 <= i < |c| && StartsWith(c[i], "Envío: ") ==> shipping > 0 && i == 2)
      && (forall i :: 0 <= i < |c| && StartsWith(c[i], "Impuestos: ") ==> taxes > 0 && i == |c| - 2)
  {
    var c := TotalsCell(subtotal, shipping, taxes, total);
    var sub, env := TotalLine("Subtotal", subtotal), TotalLine("Envío", shipping);
    var imp, tot := TotalLine("Impuestos", taxes), TotalLine("TOTAL", total);
    assert sub[0] == 'S' && env[0] == 'E' && imp[0] == 'I' && tot[0] == 'T';
    if shipping > 0 && taxes > 0 {
      assert c == ["", sub, env, imp, tot];
    } else if shipping > 0 {
      assert c == ["", sub, env, tot];
    } else if taxes > 0 {
      assert c == ["", sub, imp, tot];
    } else {
      assert c == ["", sub, tot];
    }
    forall i | 0 <= i < |c| && StartsWith(c[i], "Envío: ")
      ensures shipping > 0 && i == 2
    {
      assert c[i][0] == 'E';
    }
    forall i | 0 <= i < |c| && StartsWith(c[i], "Impuestos: ")
      ensures taxes > 0 && i == |c| - 2
    {
      assert c[i][0] == 'I';
    }
  }

  /** The footer paragraphs: an empty one, the thanks line with the company name, the notice. */
  function FooterBlocks(c: Company): seq<Block> {
    [Paragraph(""), Paragraph(FooterThanks + c.name), Paragraph(FooterNotice)]
  }

  /** Why the header of the document cannot be written: the order number, the creation date or the due date. */
  function HeaderError(o: Order, today: Date): Option<string>
    requires InPythonRange(today)
  {
    if o.orderNumber.None? then Some(KeyError("order_number"))
    else if o.createdAt.None? then Some(KeyError("created_at"))
    else if DueDate(today).Err? then Some(DueDate(today).error)
    else None
  }

  /** Why the totals cannot be written: the subtotal or the total is missing. */
  function TotalsError(o: Order): Option<string> {
    if o.subtotalPrice.None? then Some(KeyError("subtotal_price"))
    else if o.totalPrice.None? then Some(KeyError("total_price"))
    else None
  }

  /** Why `create_word_document` raises for this order, checked in the order the code reads the fields. */
  function RenderError(o: Order, today: Date): Option<string>
    requires InPythonRange(today)
  {
    if HeaderError(o, today).Some? then HeaderError(o, today)
    else if o.lineItems.None? then Some(KeyError("line_items"))
    else if ItemRows(o.lineItems.value).Err? then Some(ItemRows(o.lineItems.value).error)
    else TotalsError(o)
  }

  /** The header table: the company cell and the invoice cell with the order number and both dates. */
  function HeaderTable(c: Company, o: Order, today: Date): Block
    requires InPythonRange(today) && HeaderError(o, today).None?
  {
    Table([[CompanyCell(c), InvoiceCell(o.orderNumber.value, FormatDate(o.createdAt.value), DueDateText(today).value)]])
  }

  /** The customer table: the bill-to cell and the ship-to cell. */
  function CustomerTable(o: Order): Block {
    Table([[BillToCell(o.customer), ShipToCell(o.shippingAddress)]])
  }

  /** The items table: the header row, then the rows of the items. */
  function ItemsTable(rows: seq<Row>): Block {
    Table([ItemHeaderRow()] + rows)
  }

  /** The totals table: an empty cell and the totals cell. */
  function TotalsTable(o: Order): Block
    requires TotalsError(o).None?
  {
    Table([[EmptyCell, TotalsCell(o.subtotalPrice.value, ShippingAmount(o), o.totalTax.GetOr(0), o.totalPrice.value)]])
  }

  /**
   * The whole document for an order, `today` standing for the clock. It fails
   * exactly when a required field is missing (or the due date overflows), with
   * the first such error in the order the code reads the fields.
   */
  function InvoiceBlocks(c: Company, o: Order, today: Date): (r: Result<seq<Block>>)
    requires InPythonRange(today)
    ensures r.Err? <==> RenderError(o, today).Some?
    ensures r.Err? ==> r.error == RenderError(o, today).value
  {
    match RenderError(o, today)
    case Some(e) => Err(e)
    case None =>
      Ok([HeaderTable(c, o, today), Paragraph(""), CustomerTable(o), Paragraph(""),
          ItemsTable(ItemRows(o.lineItems.value).value), Paragraph(""), TotalsTable(o)] + FooterBlocks(c))
  }

  /**
   * The layout of a rendered invoice: ten blocks, the header with the order
   * number, the formatted creation date and the due date (today plus thirty
   * days, whatever the creation date), empty separator paragraphs, the footer.
   */
  lemma InvoiceLayout(c: Company, o: Order, today: Date)
    requires InPythonRange(today) && InvoiceBlocks(c, o, today).Ok?
    ensures var bs := InvoiceBlocks(c, o, today).value;
      && |bs| == 10
      && DueDate(today).Ok?
      && bs[0] == Table([[CompanyCell(c),
                          InvoiceCell(o.orderNumber.value, FormatDate(o.createdAt.value), FormatDMY(DueDate(today).value))]])
      && bs[1] == bs[3] == bs[5] == Paragraph("")
      && bs[7..] == FooterBlocks(c)
  {
    var rows := ItemRows(o.lineItems.value).value;
    Sections(HeaderTable(c, o, today), Paragraph(""), CustomerTable(o), Paragraph(""), ItemsTable(rows), Paragraph(""),
             TotalsTable(o), FooterBlocks(c));
  }

  /** The customer table holds the bill-to cell of the customer and the ship-to cell of the address. */
  lemma InvoiceCustomerTable(c: Company, o: Order, today: Date)
    requires InPythonRange(today) && InvoiceBlocks(c, o, today).Ok?
    ensures var bs := InvoiceBlocks(c, o, today).value;
      && |bs| == 10
      && bs[2] == Table([[BillToCell(o.customer), ShipToCell(o.shippingAddress)]])
      && (bs[2].rows[0][1] == [ShipToTitle, NoShippingInfo] <==> !DictTruthy(o.shippingAddress))
  {
    var rows := ItemRows(o.lineItems.value).value;
    Sections(HeaderTable(c, o, today), Paragraph(""), CustomerTable(o), Paragraph(""), ItemsTable(rows), Paragraph(""),
             TotalsTable(o), FooterBlocks(c));
  }

  /** The item table: the fixed header row, then exactly one row per line item, in input order. */
  lemma InvoiceItemTable(c: Company, o: Order, today: Date)
    requires InPythonRange(today) && InvoiceBlocks(c, o, today).Ok?
    ensures var bs := InvoiceBlocks(c, o, today).value;
      && |bs| == 10 && o.lineItems.Some? && bs[4].Table?
      && var rows := bs[4].rows;
      && |rows| == 1 + |o.lineItems.value|
      && rows[0] == ItemHeaderRow()
      && forall i :: 0 <= i < |o.lineItems.value| ==> ItemRow(o.lineItems.value[i]) == Ok(rows[i + 1])
  {
    var rows := ItemRows(o.lineItems.value).value;
    Sections(HeaderTable(c, o, today), Paragraph(""), CustomerTable(o), Paragraph(""), ItemsTable(rows), Paragraph(""),
             TotalsTable(o), FooterBlocks(c));
    ItemsTableRows(o.lineItems.value);
  }

  /** The items table of a list of items: the header row, then item `i`'s row at position `i + 1`. */
  lemma ItemsTableRows(items: seq<LineItem>)
    requires ItemRows(items).Ok?
    ensures var rows := ItemsTable(ItemRows(items).value).rows;
      && |rows| == 1 + |items|
      && rows[0] == ItemHeaderRow()
      && forall i :: 0 <= i < |items| ==> ItemRow(items[i]) == Ok(rows[i + 1])
  {
    ItemRowsAllOk(items);
    var table := ItemsTable(ItemRows(items).value).rows;
    forall i | 0 <= i < |items|
      ensures ItemRow(items[i]) == Ok(table[i + 1])
    {
      assert table[i + 1] == ItemRows(items).value[i];
    }
  }

  /**
   * The totals cell: Subtotal, then Envío and Impuestos for positive amounts only
   * (a missing tax or shipping path counting as zero), then TOTAL as given.
   */
  lemma InvoiceTotalsTable(c: Company, o: Order, today: Date)
    requires InPythonRange(today) && InvoiceBlocks(c, o, today).Ok?
    ensures var bs := InvoiceBlocks(c, o, today).value;
      && |bs| == 10
      && o.subtotalPrice.Some? && o.totalPrice.Some?
      && bs[6] == Table([[EmptyCell, TotalsCell(o.subtotalPrice.value, ShippingAmount(o), o.totalTax.GetOr(0), o.totalPrice.value)]])
  {
    var rows := ItemRows(o.lineItems.value).value;
    Sections(HeaderTable(c, o, today), Paragraph(""), CustomerTable(o), Paragraph(""), ItemsTable(rows), Paragraph(""),
             TotalsTable(o), FooterBlocks(c));
  }

  /** Reading back the seven body blocks and the footer of a document. */
  lemma Sections<T>(b0: T, b1: T, b2: T, b3: T, b4: T, b5: T, b6: T, footer: seq<T>)
    ensures var s := [b0, b1, b2, b3, b4, b5, b6] + footer;
      && |s| == 7 + |footer| && s[0] == b0 && s[1] == b1 && s[2] == b2 && s[3] == b3
      && s[4] == b4 && s[5] == b5 && s[6] == b6 && s[7..] == footer
  {
  }

  /**
   * The document being built, as the docx library holds it: its body blocks in
   * order. Only what `create_word_document` calls is modelled.
   */
  class Document {
    var blocks: seq<Block>

    /** `Document()`: an empty body. */
    constructor ()
      ensures blocks == []
    {
      blocks := [];
    }

    /** `doc.add_paragraph(text)`. */
    method AddParagraph(text: string)
      modifies this
      ensures blocks == old(blocks) + [Paragraph(text)]
    {
      blocks := blocks + [Paragraph(text)];
    }

    /** `doc.add_table(...)`, given the rows its cells are filled with. */
    method AddTable(rows: seq<Row>)
      modifies this
      ensures blocks == old(blocks) + [Table(rows)]
    {
      blocks := blocks + [Table(rows)];
    }

    /** `table.add_row()` on the last table of the body, given the texts of the new cells. */
    method AddRow(row: Row)
      requires |blocks| > 0 && blocks[|blocks| - 1].Table?
      modifies this
      ensures blocks == old(blocks[..|blocks| - 1]) + [Table(old(blocks[|blocks| - 1].rows) + [row])]
    {
      blocks := blocks[..|blocks| - 1] + [Table(blocks[|blocks| - 1].rows + [row])];
    }
  }
}
