/** The point-of-sale page: the cart and payment form it holds, the checkout
    and payment handlers, and the product search. */
module Pos {
  import opened Common
  import opened Types
  import opened Seqs
  import opened Text
  import Cart
  import opened Store
  import Receipt
  import Search

  /** The toasts the page raises. */
  datatype Notice =
    | CartEmpty
    | InsufficientAmount
    | SaleCompleted(invoiceNumber: string)
    | PrintFailed
    | PaymentFailed

  /** `INV-${Date.now()}`: the invoice number the page sends with a sale. */
  function PosInvoiceNumber(nowMs: nat): string
  {
    "INV-" + NatToString(nowMs)
  }

  /** Sales made in different milliseconds get different invoice numbers, each
      `INV-` followed by the decimal digits of the clock reading. */
  lemma PosInvoiceNumberFormat(a: nat, b: nat)
    ensures PosInvoiceNumber(a)[..4] == "INV-"
    ensures AllDigits(PosInvoiceNumber(a)[4..]) && DigitsValue(PosInvoiceNumber(a)[4..]) == a
    ensures a != b ==> PosInvoiceNumber(a) != PosInvoiceNumber(b)
  {
    assert PosInvoiceNumber(a)[4..] == NatToString(a);
    assert PosInvoiceNumber(b)[4..] == NatToString(b);
    NatToStringRoundTrip(a);
    if a != b {
      NatToStringInjective(a, b);
    }
  }

  /** `selectedCustomer && selectedCustomer !== 'none' ? selectedCustomer : undefined`. */
  function ChosenCustomer(selected: string): (r: Option<Id>)
    ensures r.Some? <==> selected != "" && selected != "none"
    ensures r.Some? ==> r.value == selected
  {
    if selected != "" && selected != "none" then Some(selected) else None
  }

  /** `Math.floor(total / 10)`: one loyalty point per full 10 of the total. */
  function Points(total: real): (p: int)
    ensures (p as real) * 10.0 <= total < (p as real + 1.0) * 10.0
    ensures total >= 0.0 ==> p >= 0
  {
    (total / 10.0).Floor
  }

  /** The sale lines built from the cart: a snapshot of each product's id, name
      and price, with the line amount. */
  function CartLines(cart: seq<CartItem>): (r: seq<LineRecord>)
    ensures |r| == |cart|
    ensures forall k :: 0 <= k < |cart| ==>
      r[k] == LineRecord(cart[k].product.id, cart[k].product.name, cart[k].quantity,
                         cart[k].product.price, Cart.LineTotal(cart[k]))
  {
    seq(|cart|, k requires 0 <= k < |cart| =>
      LineRecord(cart[k].product.id, cart[k].product.name, cart[k].quantity,
                 cart[k].product.price, Cart.LineTotal(cart[k])))
  }

  function LineAmount(line: LineRecord): real
  {
    line.subtotal
  }

  /** The line amounts add up to the cart subtotal the header records, and a
      valid cart gives one line per product. */
  lemma {:induction false} CartLinesSum(cart: seq<CartItem>)
    ensures SumReal(CartLines(cart), LineAmount) == Cart.Subtotal(cart)
    ensures Cart.Valid(cart) ==> DistinctProducts(CartLines(cart))
  {
    if cart != [] {
      CartLinesSum(cart[1..]);
      assert CartLines(cart)[1..] == CartLines(cart[1..]);
    }
  }

  /** The header `handlePayment` sends. */
  function SaleRecordFor(cart: seq<CartItem>, discount: NumberField, payment: string, amountReceived: NumberField,
                         selected: string, profile: Option<Profile>, nowMs: nat): SaleRecord
  {
    var total := Cart.Total(cart, discount);
    var received := OrZero(amountReceived);
    SaleRecord(
      PosInvoiceNumber(nowMs),
      ChosenCustomer(selected),
      Some(if profile.Some? then profile.value.id else ""),
      Cart.Subtotal(cart),
      OrZero(discount),
      0.0,
      total,
      payment,
      Some(if payment == "cash" then received else total),
      Some(if payment == "cash" then received - total else 0.0),
      "completed")
  }

  /** The inserted header is a completed, untaxed sale whose total is the
      discounted subtotal floored at zero; a cash sale that passed the amount
      check records a change that is never negative, any other sale records the
      total as received and no change. */
  lemma SaleRecordFacts(cart: seq<CartItem>, discount: NumberField, payment: string, amountReceived: NumberField,
                        selected: string, profile: Option<Profile>, nowMs: nat)
    ensures var r := SaleRecordFor(cart, discount, payment, amountReceived, selected, profile, nowMs);
      && r.status == "completed" && r.tax == 0.0
      && r.total == MaxReal(0.0, r.subtotal - r.discount)
      && r.subtotal == Cart.Subtotal(cart)
      && r.invoiceNumber == PosInvoiceNumber(nowMs)
      && r.amountReceived.Some? && r.changeAmount.Some?
      && (payment == "cash" && OrZero(amountReceived) >= r.total ==>
            r.changeAmount.value >= 0.0 && r.amountReceived.value == r.total + r.changeAmount.value)
      && (payment != "cash" ==> r.amountReceived == Some(r.total) && r.changeAmount == Some(0.0))
      && (r.customerId.Some? <==> selected != "" && selected != "none")
  {
  }

  /** The tables after `handlePayment`: the create, then (as written) a second
      decrement per cart line, then the loyalty points of a chosen customer. */
  function PaymentSpec(t: Tables, cart: seq<CartItem>, record: SaleRecord, selected: string, newId: Id,
                       now: Timestamp, headerOk: bool, itemsOk: bool, decrementAgain: bool): (Tables, Result<Sale, ApiError>)
  {
    var (t1, r) := CreateSpec(t, record, CartLines(cart), newId, now, headerOk, itemsOk);
    if r.Failure? then (t1, r)
    else
      var inventory := if decrementAgain then DecrementAll(t1.inventory, CartLines(cart), now) else t1.inventory;
      var customers := if ChosenCustomer(selected).Some? then WithPoints(t1.customers, selected, Points(record.total)) else t1.customers;
      (t1.(inventory := inventory, customers := customers), r)
  }

  /** As written, a paid cart line takes its quantity out of stock twice: once
      inside the create and once more in the page's own loop. */
  lemma DoubleDecrement(t: Tables, cart: seq<CartItem>, record: SaleRecord, selected: string, newId: Id,
                        now: Timestamp, k: nat)
    requires Cart.Valid(cart)
    requires newId !in t.sales
    requires k < |cart| && cart[k].product.id in t.inventory
    ensures PaymentSpec(t, cart, record, selected, newId, now, true, true, true).0.inventory[cart[k].product.id].quantity
      == MaxInt(0, MaxInt(0, t.inventory[cart[k].product.id].quantity - cart[k].quantity) - cart[k].quantity)
  {
    var p := cart[k].product.id;
    var lines := CartLines(cart);
    CartLinesSum(cart);
    assert lines[k].productId == p;
    DecrementAllAt(t.inventory, lines, now, p);
    DecrementAllAt(DecrementAll(t.inventory, lines, now), lines, now, p);
  }

  /** With 10 units in stock, selling 3 leaves 4 rather than 7. */
  lemma DoubleDecrementExample(t: Tables, cart: seq<CartItem>, record: SaleRecord, selected: string, newId: Id,
                               now: Timestamp, k: nat)
    requires Cart.Valid(cart)
    requires newId !in t.sales
    requires k < |cart| && cart[k].product.id in t.inventory
    requires t.inventory[cart[k].product.id].quantity == 10 && cart[k].quantity == 3
    ensures PaymentSpec(t, cart, record, selected, newId, now, true, true, true).0.inventory[cart[k].product.id].quantity == 4
    ensures PaymentSpec(t, cart, record, selected, newId, now, true, true, false).0.inventory[cart[k].product.id].quantity == 7
  {
    DoubleDecrement(t, cart, record, selected, newId, now, k);
    SingleDecrement(t, cart, record, selected, newId, now, k);
  }

  /** Without the page's second loop, each paid line takes exactly its quantity
      out of stock, clamped at zero, and stock of products not in the cart is
      left alone. */
  lemma SingleDecrement(t: Tables, cart: seq<CartItem>, record: SaleRecord, selected: string, newId: Id,
                        now: Timestamp, k: nat)
    requires Cart.Valid(cart)
    requires newId !in t.sales
    requires k < |cart| && cart[k].product.id in t.inventory
    ensures PaymentSpec(t, cart, record, selected, newId, now, true, true, false).0.inventory[cart[k].product.id].quantity
      == MaxInt(0, t.inventory[cart[k].product.id].quantity - cart[k].quantity)
  {
    var p := cart[k].product.id;
    var lines := CartLines(cart);
    CartLinesSum(cart);
    assert lines[k].productId == p;
    DecrementAllAt(t.inventory, lines, now, p);
  }

  lemma SingleDecrementOthers(t: Tables, cart: seq<CartItem>, record: SaleRecord, selected: string, newId: Id,
                              now: Timestamp, p: Id)
    requires Cart.Valid(cart)
    requires newId !in t.sales
    requires p in t.inventory
    requires forall k :: 0 <= k < |cart| ==> cart[k].product.id != p
    ensures PaymentSpec(t, cart, record, selected, newId, now, true, true, false).0.inventory[p] == t.inventory[p]
  {
    var lines := CartLines(cart);
    CartLinesSum(cart);
    DecrementAllAt(t.inventory, lines, now, p);
  }

  /** A paid sale credits a chosen, existing customer with the total and with
      `floor(total / 10)` loyalty points; no other customer changes. */
  lemma PaymentCustomer(t: Tables, cart: seq<CartItem>, record: SaleRecord, selected: string, newId: Id,
                        now: Timestamp, again: bool)
    requires newId !in t.sales
    requires record.customerId == ChosenCustomer(selected)
    requires selected in t.customers
    ensures var c := PaymentSpec(t, cart, record, selected, newId, now, true, true, again).0.customers;
      && (selected != "" && selected != "none" ==>
            && c[selected].loyaltyPoints == t.customers[selected].loyaltyPoints + Points(record.total)
            && c[selected].totalPurchases == t.customers[selected].totalPurchases + record.total)
      && (forall o :: o in t.customers && o != selected ==> c[o] == t.customers[o])
  {
    PurchaseEffects(t.customers, record.customerId, record.total);
  }

  /** A failed insert stops the payment before any decrement of the page's own
      or any loyalty points. */
  lemma PaymentFailure(t: Tables, cart: seq<CartItem>, record: SaleRecord, selected: string, newId: Id,
                       now: Timestamp, headerOk: bool, itemsOk: bool, again: bool)
    requires !headerOk || newId in t.sales || !itemsOk
    ensures PaymentSpec(t, cart, record, selected, newId, now, headerOk, itemsOk, again).1 == Failure(InsertFailed)
    ensures var t' := PaymentSpec(t, cart, record, selected, newId, now, headerOk, itemsOk, again).0;
      t'.inventory == t.inventory && t'.customers == t.customers && t'.saleItems == t.saleItems
  {
    CreateFailure(t, record, CartLines(cart), newId, now, headerOk, itemsOk);
  }

  /** The invoice number in the success toast, `sale.invoice_number ||
      sale.id.slice(0, 8).toUpperCase()`, with the case mapping as a parameter. */
  function ShownInvoiceNumber(sale: Sale, upper: string -> string): string
  {
    if sale.record.invoiceNumber != "" then sale.record.invoiceNumber
    else upper(if |sale.id| >= 8 then sale.id[..8] else sale.id)
  }

  /** Sales made at the till always carry an invoice number, so the toast shows it. */
  lemma ShownInvoiceIsRecorded(sale: Sale, nowMs: nat, upper: string -> string)
    requires sale.record.invoiceNumber == PosInvoiceNumber(nowMs)
    ensures ShownInvoiceNumber(sale, upper) == PosInvoiceNumber(nowMs)
  {
  }

  /** The receipt receipt after a sale: it is given the inserted header as
      returned, without the customer, cashier or line joins. */
  function PosReceipt(sale: Sale, storeName: string, paper: Receipt.PaperSize, formatDate: Timestamp -> string): Receipt.Receipt
  {
    Receipt.Generate(SaleView(sale, None, None, None), Some(storeName), Some(paper), formatDate)
  }

  /** So the receipt receipt lists no items, names no customer and shows '-' for
      the cashier, whatever was sold. */
  lemma PosReceiptIsBare(sale: Sale, storeName: string, paper: Receipt.PaperSize, formatDate: Timestamp -> string)
    ensures PosReceipt(sale, storeName, paper, formatDate).items == []
    ensures |PosReceipt(sale, storeName, paper, formatDate).header| == 5
    ensures PosReceipt(sale, storeName, paper, formatDate).header[4] == Receipt.CashierLine("-")
    ensures PosReceipt(sale, storeName, paper, formatDate).header[0] == Receipt.StoreName(storeName)
  {
    Receipt.HeaderShown(SaleView(sale, None, None, None), Some(storeName), Some(paper), formatDate);
  }

  /** The fields the point-of-sale search looks at: the name, then the barcode. */
  function SearchFields(product: Product): seq<Option<string>>
  {
    [Some(product.name), product.barcode]
  }

  function FilterProducts(products: seq<Product>, term: string, lower: string -> string): seq<Product>
  {
    Search.Search(products, SearchFields, term, lower)
  }

  /** A product is listed exactly when its name, or its barcode when it has one,
      contains the term in lower case; an empty term lists the whole catalogue. */
  lemma FilterProductsShows(products: seq<Product>, term: string, lower: string -> string, product: Product)
    ensures product in FilterProducts(products, term, lower) <==>
      (product in products
       && (Contains(lower(product.name), lower(term))
           || (product.barcode.Some? && Contains(lower(product.barcode.value), lower(term)))))
    ensures lower(term) == "" ==> FilterProducts(products, term, lower) == products
  {
    Search.SearchShows(products, SearchFields, term, lower, product);
    Search.AnyFieldTwo(Some(product.name), product.barcode, term, lower);
  }

  /** The payment form fields, everything the page holds besides the cart. */
  datatype Form = Form(
    dialogOpen: bool,
    paymentMethod: string,
    amountReceived: NumberField,
    discount: NumberField,
    selectedCustomer: string,
    paperSize: Receipt.PaperSize,
    storeName: string)

  /** The form as the page opens it and as a completed payment leaves it (the
      store name and paper size are kept). */
  function FreshForm(paperSize: Receipt.PaperSize, storeName: string): Form
  {
    Form(false, "cash", Empty, Entered(0.0), "", paperSize, storeName)
  }

  class PosPage {
    var cart: seq<CartItem>
    var paymentDialogOpen: bool
    var paymentMethod: string
    var amountReceived: NumberField
    var discount: NumberField
    var selectedCustomer: string
    var paperSize: Receipt.PaperSize
    var storeName: string

    function FormState(): Form
      reads this
    {
      Form(paymentDialogOpen, paymentMethod, amountReceived, discount, selectedCustomer, paperSize, storeName)
    }

    /** The cart invariant holds between handlers: every line has a positive
        quantity and no product has two lines. */
    predicate Valid()
      reads this
    {
      Cart.Valid(cart)
    }

    constructor ()
      ensures Valid()
      ensures cart == []
      ensures FormState() == FreshForm(Receipt.DefaultPaper, Receipt.DefaultStoreName)
    {
      cart := [];
      paymentDialogOpen := false;
      paymentMethod := "cash";
      amountReceived := Empty;
      discount := Entered(0.0);
      selectedCustomer := "";
      paperSize := Receipt.Mm88;
      storeName := Receipt.DefaultStoreName;
    }

    /** `loadStoreSettings`: a truthy `store_name` setting replaces the default. */
    method LoadStoreName(setting: Option<Setting>)
      requires Valid()
      modifies this
      ensures Valid()
      ensures storeName == if setting.Some? && Truthy(setting.value.value) then setting.value.value.value else old(storeName)
      ensures cart == old(cart)
      ensures FormState() == old(FormState()).(storeName := storeName)
    {
      if setting.Some? && Truthy(setting.value.value) {
        storeName := setting.value.value.value;
      }
    }

    method AddToCart(product: Product)
      requires Valid()
      modifies this
      ensures Valid()
      ensures cart == Cart.AddToCart(old(cart), product)
      ensures FormState() == old(FormState())
    {
      Cart.AddToCartValid(cart, product);
      cart := Cart.AddToCart(cart, product);
    }

    method UpdateQuantity(productId: Id, change: int)
      requires Valid()
      modifies this
      ensures Valid()
      ensures cart == Cart.UpdateQuantity(old(cart), productId, change)
      ensures FormState() == old(FormState())
    {
      Cart.UpdateQuantityValid(cart, productId, change);
      cart := Cart.UpdateQuantity(cart, productId, change);
    }

    method RemoveFromCart(productId: Id)
      requires Valid()
      modifies this
      ensures Valid()
      ensures cart == Cart.RemoveFromCart(old(cart), productId)
      ensures FormState() == old(FormState())
    {
      Cart.RemoveFromCartValid(cart, productId);
      cart := Cart.RemoveFromCart(cart, productId);
    }

    method ClearCart()
      requires Valid()
      modifies this
      ensures Valid()
      ensures cart == []
      ensures FormState() == old(FormState())
    {
      cart := Cart.ClearCart();
    }

    /** `handleCheckout`: an empty cart raises an error and keeps the dialog
        closed; otherwise the payment dialog opens. */
    method HandleCheckout() returns (notice: Option<Notice>)
      requires Valid()
      modifies this
      ensures Valid()
      ensures |cart| == 0 ==> notice == Some(CartEmpty) && paymentDialogOpen == old(paymentDialogOpen)
      ensures |cart| > 0 ==> notice == None && paymentDialogOpen
      ensures cart == old(cart)
      ensures FormState() == old(FormState()).(dialogOpen := paymentDialogOpen)
    {
      if |cart| == 0 {
        return Some(CartEmpty);
      }
      paymentDialogOpen := true;
      notice := None;
    }

    /** `paymentMethod === 'cash' && received < total`: the cash handed over
        does not cover the total. */
    predicate Rejected()
      reads this
    {
      paymentMethod == "cash" && OrZero(amountReceived) < Cart.Total(cart, discount)
    }

    /** The sale header for the current cart and form. */
    function Record(profile: Option<Profile>, nowMs: nat): SaleRecord
      reads this
    {
      SaleRecordFor(cart, discount, paymentMethod, amountReceived, selectedCustomer, profile, nowMs)
    }

    /** The tables and the create's result after paying for the current cart. */
    function Outcome(t: Tables, profile: Option<Profile>, nowMs: nat, newId: Id, now: Timestamp,
                     headerOk: bool, itemsOk: bool, decrementAgain: bool): (Tables, Result<Sale, ApiError>)
      reads this
    {
      PaymentSpec(t, cart, Record(profile, nowMs), selectedCustomer, newId, now, headerOk, itemsOk, decrementAgain)
    }

    /** `handlePayment`, as written: the create already decrements stock, and the
        page then decrements every cart line again. `nowMs` is `Date.now()`,
        `now` the timestamp the backend stamps, `newId` the id it generates; the
        flags say whether each insert succeeds and whether printing throws.
        An insufficient cash amount or a failed insert leaves the cart and form
        as they were for another attempt. */
    method HandlePayment(db: Database, profile: Option<Profile>, nowMs: nat, now: Timestamp, newId: Id,
                         headerOk: bool, itemsOk: bool, printOk: bool,
                         formatDate: Timestamp -> string, upper: string -> string)
      returns (notices: seq<Notice>, receipt: Option<Receipt.Receipt>)
      requires Valid()
      modifies this, db
      ensures Valid()
      ensures old(Rejected()) ==>
        && notices == [InsufficientAmount] && receipt == None
        && db.State() == old(db.State()) && cart == old(cart) && FormState() == old(FormState())
      ensures !old(Rejected()) ==>
        db.State() == old(Outcome(db.State(), profile, nowMs, newId, now, headerOk, itemsOk, true)).0
      ensures !old(Rejected()) && old(Outcome(db.State(), profile, nowMs, newId, now, headerOk, itemsOk, true)).1.Failure? ==>
        && notices == [PaymentFailed] && receipt == None
        && cart == old(cart) && FormState() == old(FormState())
      ensures !old(Rejected()) && old(Outcome(db.State(), profile, nowMs, newId, now, headerOk, itemsOk, true)).1.Success? ==>
        Completed(old(Outcome(db.State(), profile, nowMs, newId, now, headerOk, itemsOk, true)).1.value,
                  old(FormState()), printOk, formatDate, upper, notices, receipt)
    {
      if Rejected() {
        return [InsufficientAmount], None;
      }
      var record := Record(profile, nowMs);
      var lines := CartLines(cart);
      var r := db.CreateSale(record, lines, newId, now, headerOk, itemsOk);
      if r.Failure? {
        return [PaymentFailed], None;
      }
      DecrementCart(db, now);
      if ChosenCustomer(selectedCustomer).Some? {
        db.AddLoyaltyPoints(selectedCustomer, Points(record.total));
      }
      notices, receipt := Finish(r.value, printOk, formatDate, upper);
    }

    /** The page's own loop over the cart: one `decrementQuantity` per line. */
    method DecrementCart(db: Database, now: Timestamp)
      modifies db
      ensures db.State() == old(db.State()).(inventory := DecrementAll(old(db.inventory), CartLines(cart), now))
    {
      var lines := CartLines(cart);
      var k := 0;
      while k < |cart|
        invariant 0 <= k <= |cart|
        invariant db.State() == old(db.State()).(inventory := DecrementAll(old(db.inventory), lines[..k], now))
      {
        assert lines[..k + 1][..k] == lines[..k];
        db.DecrementQuantity(cart[k].product.id, cart[k].quantity, now);
        k := k + 1;
      }
      assert lines[..k] == lines;
    }

    /** `handlePayment` with the page's own decrement loop removed, so the
        create's decrement is the only one. */
    method HandlePaymentOnce(db: Database, profile: Option<Profile>, nowMs: nat, now: Timestamp, newId: Id,
                             headerOk: bool, itemsOk: bool, printOk: bool,
                             formatDate: Timestamp -> string, upper: string -> string)
      returns (notices: seq<Notice>, receipt: Option<Receipt.Receipt>)
      requires Valid()
      modifies this, db
      ensures Valid()
      ensures old(Rejected()) ==>
        && notices == [InsufficientAmount] && receipt == None
        && db.State() == old(db.State()) && cart == old(cart) && FormState() == old(FormState())
      ensures !old(Rejected()) ==>
        db.State() == old(Outcome(db.State(), profile, nowMs, newId, now, headerOk, itemsOk, false)).0
      ensures !old(Rejected()) && old(Outcome(db.State(), profile, nowMs, newId, now, headerOk, itemsOk, false)).1.Failure? ==>
        && notices == [PaymentFailed] && receipt == None
        && cart == old(cart) && FormState() == old(FormState())
      ensures !old(Rejected()) && old(Outcome(db.State(), profile, nowMs, newId, now, headerOk, itemsOk, false)).1.Success? ==>
        Completed(old(Outcome(db.State(), profile, nowMs, newId, now, headerOk, itemsOk, false)).1.value,
                  old(FormState()), printOk, formatDate, upper, notices, receipt)
    {
      if Rejected() {
        return [InsufficientAmount], None;
      }
      var record := Record(profile, nowMs);
      var r := db.CreateSale(record, CartLines(cart), newId, now, headerOk, itemsOk);
      if r.Failure? {
        return [PaymentFailed], None;
      }
      if ChosenCustomer(selectedCustomer).Some? {
        db.AddLoyaltyPoints(selectedCustomer, Points(record.total));
      }
      notices, receipt := Finish(r.value, printOk, formatDate, upper);
    }

    /** The end of a successful payment: the success toast, the receipt receipt
        (a print failure is only a warning), and the form reset. */
    method Finish(sale: Sale, printOk: bool, formatDate: Timestamp -> string, upper: string -> string)
      returns (notices: seq<Notice>, receipt: Option<Receipt.Receipt>)
      modifies this
      ensures Valid()
      ensures Completed(sale, old(FormState()), printOk, formatDate, upper, notices, receipt)
    {
      notices := [SaleCompleted(ShownInvoiceNumber(sale, upper))];
      receipt := Some(PosReceipt(sale, storeName, paperSize, formatDate));
      if !printOk {
        notices := notices + [PrintFailed];
      }
      cart := Cart.ClearCart();
      paymentDialogOpen := false;
      paymentMethod := "cash";
      amountReceived := Empty;
      discount := Entered(0.0);
      selectedCustomer := "";
    }

    /** After a successful payment the cart is empty, the dialog closed, the form
        back to cash with no amount, a zero discount and no customer; the toasts
        announce the invoice number and, when printing threw, a warning; the
        receipt receipt is the one for the returned header. */
    predicate Completed(sale: Sale, form: Form, printOk: bool, formatDate: Timestamp -> string,
                                 upper: string -> string, notices: seq<Notice>, receipt: Option<Receipt.Receipt>)
      reads this
    {
      && cart == []
      && FormState() == FreshForm(form.paperSize, form.storeName)
      && notices == [SaleCompleted(ShownInvoiceNumber(sale, upper))] + (if printOk then [] else [PrintFailed])
      && receipt == Some(PosReceipt(sale, form.storeName, form.paperSize, formatDate))
    }
  }
}
