/** The thermal receipt: the document `generateThermalReceipt` lays out for a
    sale, as its sequence of sections and rows. Money is kept as an amount; its
    two-decimal rendering and the surrounding markup are not modelled. */
module Receipt {
  import opened Common
  import opened Types

  datatype PaperSize = Mm55 | Mm88

  const DefaultStoreName: string := "مطعم البوفيه"
  const DefaultPaper: PaperSize := Mm88

  /** The page width and the font sizes, in pixels, of the body, the store
      name, the info lines, the grand total and the footer. */
  datatype Style = Style(width: string, body: nat, storeName: nat, info: nat, grandTotal: nat, footer: nat)

  function StyleFor(paper: PaperSize): Style
  {
    if paper == Mm55 then Style("55mm", 10, 14, 9, 12, 9)
    else Style("88mm", 12, 16, 11, 14, 11)
  }

  /** Only the 55 mm roll is narrow, and on it every font is exactly two pixels
      smaller than on the 88 mm roll. */
  lemma StyleNarrowing()
    ensures StyleFor(Mm55).width == "55mm" && StyleFor(Mm88).width == "88mm"
    ensures var n, w := StyleFor(Mm55), StyleFor(Mm88);
      && n.body + 2 == w.body && n.storeName + 2 == w.storeName && n.info + 2 == w.info
      && n.grandTotal + 2 == w.grandTotal && n.footer + 2 == w.footer
    ensures StyleFor(DefaultPaper) == StyleFor(Mm88)
  {
  }

  datatype HeaderLine =
    | StoreName(name: string)
    | Title
    | InvoiceNumber(number: string)
    | Date(text: string)
    | CashierLine(username: string)
    | CustomerLine(name: string)

  datatype ItemRow = ItemRow(name: string, quantity: int, amount: real)

  datatype TotalRow =
    | SubtotalRow(amount: real)
    | DiscountRow(amount: real)
    | TaxRow(amount: real)
    | GrandTotalRow(amount: real)
    | PaymentRow(text: string)
    | ReceivedRow(amount: real)
    | ChangeRow(amount: real)

  datatype Receipt = Receipt(style: Style, header: seq<HeaderLine>, items: seq<ItemRow>, totals: seq<TotalRow>)

  /** The label printed for a payment method. Any method other than cash or
      card, the POS page's `credit` included, prints as an e-wallet. */
  function PaymentLabel(payment: string): string
  {
    if payment == "cash" then "نقدي"
    else if payment == "card" then "بطاقة"
    else "محفظة إلكترونية"
  }

  lemma PaymentLabels(payment: string)
    ensures PaymentLabel(payment) == "نقدي" <==> payment == "cash"
    ensures PaymentLabel(payment) == "بطاقة" <==> payment == "card"
    ensures payment != "cash" && payment != "card" ==> PaymentLabel(payment) == "محفظة إلكترونية"
    ensures PaymentLabel("credit") == "محفظة إلكترونية"
  {
  }

  function ItemRows(items: seq<SaleItem>): (r: seq<ItemRow>)
    ensures |r| == |items|
    ensures forall k :: 0 <= k < |items| ==>
      r[k] == ItemRow(items[k].line.productName, items[k].line.quantity, items[k].line.subtotal)
  {
    seq(|items|, k requires 0 <= k < |items| =>
      ItemRow(items[k].line.productName, items[k].line.quantity, items[k].line.subtotal))
  }

  /** Received and change are printed for a cash sale whose received amount is
      truthy, that is present and non-zero. */
  predicate ShowsCash(record: SaleRecord)
  {
    record.paymentMethod == "cash" && record.amountReceived.Some? && record.amountReceived.value != 0.0
  }

  function TotalRows(record: SaleRecord): seq<TotalRow>
  {
    [SubtotalRow(record.subtotal)]
    + (if record.discount > 0.0 then [DiscountRow(record.discount)] else [])
    + (if record.tax > 0.0 then [TaxRow(record.tax)] else [])
    + [GrandTotalRow(record.total), PaymentRow(PaymentLabel(record.paymentMethod))]
    + (if ShowsCash(record) then [ReceivedRow(record.amountReceived.value), ChangeRow(record.changeAmount.GetOr(0.0))] else [])
  }

  function HeaderLines(view: SaleView, storeName: string, formatDate: Timestamp -> string): seq<HeaderLine>
  {
    var sale := view.sale;
    var date := if Truthy(sale.createdAt) then formatDate(sale.createdAt.value) else "";
    var cashier := if view.cashier.Some? && Truthy(view.cashier.value.username) then view.cashier.value.username.value else "-";
    [StoreName(storeName), Title, InvoiceNumber(sale.record.invoiceNumber), Date(date), CashierLine(cashier)]
    + (if view.customer.Some? then [CustomerLine(view.customer.value.name)] else [])
  }

  /** `generateThermalReceipt({sale, storeName, paperSize})`, with the date
      formatter (`yyyy/MM/dd HH:mm` of the local time zone) as a parameter. */
  function Generate(view: SaleView, storeName: Option<string>, paper: Option<PaperSize>,
                    formatDate: Timestamp -> string): Receipt
  {
    Receipt(
      StyleFor(paper.GetOr(DefaultPaper)),
      HeaderLines(view, storeName.GetOr(DefaultStoreName), formatDate),
      ItemRows(view.items.GetOr([])),
      TotalRows(view.sale.record))
  }

  /** The total row of one kind occurs in the totals section. */
  predicate Shows(rows: seq<TotalRow>, kind: TotalRow -> bool)
  {
    exists k :: 0 <= k < |rows| && kind(rows[k])
  }

  predicate IsDiscount(row: TotalRow) { row.DiscountRow? }
  predicate IsTax(row: TotalRow) { row.TaxRow? }
  predicate IsReceived(row: TotalRow) { row.ReceivedRow? }
  predicate IsChange(row: TotalRow) { row.ChangeRow? }

  /** The five sections of the totals: subtotal, discount, tax, grand total
      with payment label, and the cash rows. */
  function Sections(record: SaleRecord): (seq<TotalRow>, seq<TotalRow>, seq<TotalRow>, seq<TotalRow>, seq<TotalRow>)
  {
    ([SubtotalRow(record.subtotal)],
     if record.discount > 0.0 then [DiscountRow(record.discount)] else [],
     if record.tax > 0.0 then [TaxRow(record.tax)] else [],
     [GrandTotalRow(record.total), PaymentRow(PaymentLabel(record.paymentMethod))],
     if ShowsCash(record) then [ReceivedRow(record.amountReceived.value), ChangeRow(record.changeAmount.GetOr(0.0))] else [])
  }

  /** The totals section opens with the subtotal and always shows the grand
      total followed by the payment label. */
  lemma TotalsLayout(record: SaleRecord)
    ensures TotalRows(record)[0] == SubtotalRow(record.subtotal)
    ensures exists k ::
      && 0 <= k < |TotalRows(record)| - 1
      && TotalRows(record)[k] == GrandTotalRow(record.total)
      && TotalRows(record)[k + 1] == PaymentRow(PaymentLabel(record.paymentMethod))
  {
    var (a, d, t, g, c) := Sections(record);
    var rows := TotalRows(record);
    assert rows == a + d + t + g + c;
    var k := |a + d + t|;
    assert rows[k] == g[0] && rows[k + 1] == g[1];
  }

  /** A discount row is printed exactly when the discount is positive. */
  lemma DiscountShown(record: SaleRecord)
    ensures Shows(TotalRows(record), IsDiscount) <==> record.discount > 0.0
  {
    var (a, d, t, g, c) := Sections(record);
    assert TotalRows(record) == a + d + t + g + c;
    ShowsIn(a, d, t, g, c, IsDiscount);
    if record.discount > 0.0 {
      assert IsDiscount(d[0]);
    }
  }

  /** A tax row is printed exactly when the tax is positive. */
  lemma TaxShown(record: SaleRecord)
    ensures Shows(TotalRows(record), IsTax) <==> record.tax > 0.0
  {
    var (a, d, t, g, c) := Sections(record);
    assert TotalRows(record) == a + d + t + g + c;
    ShowsIn(a, d, t, g, c, IsTax);
    if record.tax > 0.0 {
      assert IsTax(t[0]);
    }
  }

  /** The received and change rows are printed exactly for a cash payment with a
      truthy received amount, and then end the totals; a missing change prints 0. */
  lemma CashShown(record: SaleRecord)
    ensures Shows(TotalRows(record), IsReceived) <==> ShowsCash(record)
    ensures Shows(TotalRows(record), IsChange) <==> ShowsCash(record)
    ensures ShowsCash(record) ==>
      TotalRows(record)[|TotalRows(record)| - 1] == ChangeRow(record.changeAmount.GetOr(0.0))
  {
    var (a, d, t, g, c) := Sections(record);
    assert TotalRows(record) == a + d + t + g + c;
    ShowsIn(a, d, t, g, c, IsReceived);
    ShowsIn(a, d, t, g, c, IsChange);
    if ShowsCash(record) {
      assert IsReceived(c[0]) && IsChange(c[1]);
    }
  }

  /** A row kind occurs in five concatenated sections iff it occurs in one. */
  lemma ShowsIn(a: seq<TotalRow>, d: seq<TotalRow>, t: seq<TotalRow>, g: seq<TotalRow>, c: seq<TotalRow>,
                kind: TotalRow -> bool)
    ensures Shows(a + d + t + g + c, kind) <==>
      Shows(a, kind) || Shows(d, kind) || Shows(t, kind) || Shows(g, kind) || Shows(c, kind)
  {
    var rows := a + d + t + g + c;
    if Shows(rows, kind) {
      var k :| 0 <= k < |rows| && kind(rows[k]);
      if k < |a| { assert kind(a[k]); }
      else if k < |a + d| { assert kind(d[k - |a|]); }
      else if k < |a + d + t| { assert kind(t[k - |a + d|]); }
      else if k < |a + d + t + g| { assert kind(g[k - |a + d + t|]); }
      else { assert kind(c[k - |a + d + t + g|]); }
    }
    if Shows(a, kind) { var k :| 0 <= k < |a| && kind(a[k]); assert rows[k] == a[k]; }
    if Shows(d, kind) { var k :| 0 <= k < |d| && kind(d[k]); assert rows[|a| + k] == d[k]; }
    if Shows(t, kind) { var k :| 0 <= k < |t| && kind(t[k]); assert rows[|a + d| + k] == t[k]; }
    if Shows(g, kind) { var k :| 0 <= k < |g| && kind(g[k]); assert rows[|a + d + t| + k] == g[k]; }
    if Shows(c, kind) { var k :| 0 <= k < |c| && kind(c[k]); assert rows[|a + d + t + g| + k] == c[k]; }
  }

  /** The header names the store (the default when none is given), the invoice
      number, the date (blank without a creation time) and the cashier's username
      ('-' without one), and has a customer line exactly when a customer is joined. */
  lemma HeaderShown(view: SaleView, storeName: Option<string>, paper: Option<PaperSize>, formatDate: Timestamp -> string)
    ensures var h := Generate(view, storeName, paper, formatDate).header;
      && h[0] == StoreName(if storeName.Some? then storeName.value else DefaultStoreName)
      && h[2] == InvoiceNumber(view.sale.record.invoiceNumber)
      && (view.sale.createdAt.None? ==> h[3] == Date(""))
      && (view.cashier.None? ==> h[4] == CashierLine("-"))
      && (|h| == 6 <==> view.customer.Some?)
      && |h| >= 5
      && (view.customer.Some? ==> h[5] == CustomerLine(view.customer.value.name))
    ensures Generate(view, storeName, paper, formatDate).style.width == (if paper == Some(Mm55) then "55mm" else "88mm")
  {
  }

  /** Every line of the sale prints as one item row, in order, with its product
      name, quantity and line amount; a view without lines prints none. */
  lemma ItemsShown(view: SaleView, storeName: Option<string>, paper: Option<PaperSize>, formatDate: Timestamp -> string)
    ensures var r := Generate(view, storeName, paper, formatDate);
      && (view.items.None? ==> r.items == [])
      && (view.items.Some? ==> |r.items| == |view.items.value|)
      && (view.items.Some? ==>
            forall k :: 0 <= k < |r.items| ==>
              && r.items[k].name == view.items.value[k].line.productName
              && r.items[k].quantity == view.items.value[k].line.quantity
              && r.items[k].amount == view.items.value[k].line.subtotal)
  {
  }
}
