/** The data-access layer: the inventory, customers, sales and sale_items
    tables as in-memory maps, and the operations that read-then-write them.
    Each write that can fail takes a flag saying whether the backend accepts it. */
module Store {
  import opened Common
  import opened Types
  import opened Seqs
  import opened Text

  datatype ApiError = InsertFailed | UpdateFailed | SaleNotFound

  /** The four tables. Stock is keyed by product id, since every lookup is by
      `product_id` with at most one match. */
  datatype Tables = Tables(
    inventory: map<Id, Inventory>,
    customers: map<Id, Customer>,
    sales: map<Id, Sale>,
    saleItems: seq<SaleItem>)

  /** Referential integrity: every sale line belongs to a stored sale, and each
      sale is stored under its own id. */
  predicate Consistent(t: Tables)
  {
    && (forall k :: 0 <= k < |t.saleItems| ==> t.saleItems[k].saleId in t.sales)
    && (forall s :: s in t.sales ==> t.sales[s].id == s)
  }

  // ---------------------------------------------------------------------
  // Stock

  /** The stock table after `updateQuantity(productId, quantity)`: the record's
      quantity is set and it is stamped as restocked now; without a record the
      update matches no row. */
  function SetQuantity(inv: map<Id, Inventory>, productId: Id, quantity: int, now: Timestamp): (r: map<Id, Inventory>)
    ensures r.Keys == inv.Keys
    ensures productId in inv ==> r[productId].quantity == quantity && r[productId].lastRestockedAt == Some(now)
    ensures productId in inv ==> r[productId].productId == inv[productId].productId
    ensures productId in inv ==> r[productId].minQuantity == inv[productId].minQuantity
    ensures forall p :: p in inv && p != productId ==> r[p] == inv[p]
  {
    if productId in inv then inv[productId := inv[productId].(quantity := quantity, lastRestockedAt := Some(now))]
    else inv
  }

  /** The stock table after `decrementQuantity(productId, amount)`. */
  function Decremented(inv: map<Id, Inventory>, productId: Id, amount: int, now: Timestamp): map<Id, Inventory>
  {
    if productId in inv then SetQuantity(inv, productId, MaxInt(0, inv[productId].quantity - amount), now)
    else inv
  }

  /** A decrement clamps at zero, so stock it touches is never negative; a
      product without a stock record is left alone, as is every other record. */
  lemma DecrementedEffect(inv: map<Id, Inventory>, productId: Id, amount: int, now: Timestamp)
    ensures Decremented(inv, productId, amount, now).Keys == inv.Keys
    ensures productId in inv ==>
      Decremented(inv, productId, amount, now)[productId].quantity == MaxInt(0, inv[productId].quantity - amount) >= 0
    ensures productId !in inv ==> Decremented(inv, productId, amount, now) == inv
    ensures forall p :: p in inv && p != productId ==> Decremented(inv, productId, amount, now)[p] == inv[p]
  {
  }

  /** The stock table after decrementing each line's product by its quantity, in order. */
  function DecrementAll(inv: map<Id, Inventory>, lines: seq<LineRecord>, now: Timestamp): (r: map<Id, Inventory>)
    ensures r.Keys == inv.Keys
  {
    if lines == [] then inv
    else
      var last := lines[|lines| - 1];
      Decremented(DecrementAll(inv, lines[..|lines| - 1], now), last.productId, last.quantity, now)
  }

  /** No two lines are for the same product. */
  predicate DistinctProducts(lines: seq<LineRecord>)
  {
    forall i, j :: 0 <= i < j < |lines| ==> lines[i].productId != lines[j].productId
  }

  /** With one line per product, each product's stock drops by its line's
      quantity, clamped at zero, and products without a line keep their record. */
  lemma {:induction false} DecrementAllAt(inv: map<Id, Inventory>, lines: seq<LineRecord>, now: Timestamp, p: Id)
    requires DistinctProducts(lines)
    requires p in inv
    ensures (forall k :: 0 <= k < |lines| ==> lines[k].productId != p) ==>
      DecrementAll(inv, lines, now)[p] == inv[p]
    ensures forall k :: 0 <= k < |lines| && lines[k].productId == p ==>
      DecrementAll(inv, lines, now)[p].quantity == MaxInt(0, inv[p].quantity - lines[k].quantity)
  {
    if lines != [] {
      var init := lines[..|lines| - 1];
      var last := lines[|lines| - 1];
      assert DistinctProducts(init);
      DecrementAllAt(inv, init, now, p);
      if last.productId == p {
        assert forall k :: 0 <= k < |init| ==> init[k].productId != p;
      } else {
        forall k | 0 <= k < |lines| && lines[k].productId == p
          ensures DecrementAll(inv, lines, now)[p].quantity == MaxInt(0, inv[p].quantity - lines[k].quantity)
        {
          assert k < |init| && init[k] == lines[k];
        }
      }
    }
  }

  /** The stock table after the refund loop: each line's quantity is added back
      to its product's record, when there is one. */
  function RestoreAll(inv: map<Id, Inventory>, lines: seq<LineRecord>, now: Timestamp): (r: map<Id, Inventory>)
    ensures r.Keys == inv.Keys
  {
    if lines == [] then inv
    else
      var last := lines[|lines| - 1];
      var before := RestoreAll(inv, lines[..|lines| - 1], now);
      if last.productId in before then SetQuantity(before, last.productId, before[last.productId].quantity + last.quantity, now)
      else before
  }

  /** The total quantity the lines hold of product `p`. */
  function QuantityOf(lines: seq<LineRecord>, p: Id): int
  {
    if lines == [] then 0
    else QuantityOf(lines[..|lines| - 1], p) + (if lines[|lines| - 1].productId == p then lines[|lines| - 1].quantity else 0)
  }

  /** Restoring adds every line's quantity back, with no clamp and no check of
      how much was taken out: a product's stock grows by all of its lines. */
  lemma {:induction false} RestoreAllAt(inv: map<Id, Inventory>, lines: seq<LineRecord>, now: Timestamp, p: Id)
    requires p in inv
    ensures RestoreAll(inv, lines, now)[p].quantity == inv[p].quantity + QuantityOf(lines, p)
    ensures RestoreAll(inv, lines, now)[p].minQuantity == inv[p].minQuantity
  {
    if lines != [] {
      RestoreAllAt(inv, lines[..|lines| - 1], now, p);
    }
  }

  // ---------------------------------------------------------------------
  // Customers

  /** The customers table after `addLoyaltyPoints(id, points)`: no clamp, and a
      missing customer is a no-op. */
  function WithPoints(cs: map<Id, Customer>, id: Id, points: int): (r: map<Id, Customer>)
    ensures r.Keys == cs.Keys
    ensures id in cs ==> r[id] == cs[id].(loyaltyPoints := cs[id].loyaltyPoints + points)
    ensures forall c :: c in cs && c != id ==> r[c] == cs[c]
  {
    if id in cs then cs[id := cs[id].(loyaltyPoints := cs[id].loyaltyPoints + points)] else cs
  }

  /** The customers table after a sale: `total_purchases` grows by the total when
      the sale names a customer that exists. */
  function WithPurchase(cs: map<Id, Customer>, customerId: Option<Id>, total: real): map<Id, Customer>
  {
    if Truthy(customerId) && customerId.value in cs then
      var c := cs[customerId.value];
      cs[customerId.value := c.(totalPurchases := c.totalPurchases + total)]
    else cs
  }

  /** The customers table after a refund: `total_purchases` shrinks by the total,
      clamped at zero. */
  function WithoutPurchase(cs: map<Id, Customer>, customerId: Option<Id>, total: real): map<Id, Customer>
  {
    if Truthy(customerId) && customerId.value in cs then
      var c := cs[customerId.value];
      cs[customerId.value := c.(totalPurchases := MaxReal(0.0, c.totalPurchases - total))]
    else cs
  }

  /** Neither a sale nor a refund touches loyalty points, names or contacts; a
      refund never leaves a negative purchase total on the customer it adjusts. */
  lemma PurchaseEffects(cs: map<Id, Customer>, customerId: Option<Id>, total: real)
    ensures WithPurchase(cs, customerId, total).Keys == cs.Keys
    ensures WithoutPurchase(cs, customerId, total).Keys == cs.Keys
    ensures forall c :: c in cs ==>
      && WithPurchase(cs, customerId, total)[c] == cs[c].(totalPurchases := WithPurchase(cs, customerId, total)[c].totalPurchases)
      && WithoutPurchase(cs, customerId, total)[c] == cs[c].(totalPurchases := WithoutPurchase(cs, customerId, total)[c].totalPurchases)
    ensures Truthy(customerId) && customerId.value in cs ==>
      && WithPurchase(cs, customerId, total)[customerId.value].totalPurchases == cs[customerId.value].totalPurchases + total
      && WithoutPurchase(cs, customerId, total)[customerId.value].totalPurchases == MaxReal(0.0, cs[customerId.value].totalPurchases - total)
    ensures !(Truthy(customerId) && customerId.value in cs) ==>
      WithPurchase(cs, customerId, total) == cs && WithoutPurchase(cs, customerId, total) == cs
  {
  }

  // ---------------------------------------------------------------------
  // Sales

  /** `items.map(item => ({...item, sale_id}))`. */
  function Tag(saleId: Id, lines: seq<LineRecord>): (r: seq<SaleItem>)
    ensures |r| == |lines|
    ensures forall k :: 0 <= k < |lines| ==> r[k] == SaleItem(saleId, lines[k])
  {
    seq(|lines|, k requires 0 <= k < |lines| => SaleItem(saleId, lines[k]))
  }

  /** The item rows have sale id `saleId`. */
  function ForSale(saleId: Id): SaleItem -> bool
  {
    (item: SaleItem) => item.saleId == saleId
  }

  /** The rows of the sale_items table that belong to a sale, in table order. */
  function ItemsOf(rows: seq<SaleItem>, saleId: Id): seq<SaleItem>
  {
    Keep(rows, ForSale(saleId))
  }

  function LinesOf(items: seq<SaleItem>): (r: seq<LineRecord>)
    ensures |r| == |items|
    ensures forall k :: 0 <= k < |items| ==> r[k] == items[k].line
  {
    seq(|items|, k requires 0 <= k < |items| => items[k].line)
  }

  /** `salesApi.create(sale, items)`: insert the header, then the lines tagged
      with the new id, then decrement stock line by line, then add the total to
      the customer's purchases. The first failing insert stops the sequence and
      nothing already written is undone. */
  function CreateSpec(t: Tables, record: SaleRecord, lines: seq<LineRecord>, newId: Id, now: Timestamp,
                      headerOk: bool, itemsOk: bool): (Tables, Result<Sale, ApiError>)
  {
    if !headerOk || newId in t.sales then (t, Failure(InsertFailed))
    else
      var header := Sale(newId, Some(now), record);
      var withHeader := t.(sales := t.sales[newId := header]);
      if !itemsOk then (withHeader, Failure(InsertFailed))
      else
        (withHeader.(saleItems := t.saleItems + Tag(newId, lines),
                     inventory := DecrementAll(t.inventory, lines, now),
                     customers := WithPurchase(t.customers, record.customerId, record.total)),
         Success(header))
  }

  /** A failed header insert writes nothing; a failed item insert leaves the
      header behind but touches no line, stock or customer. */
  lemma CreateFailure(t: Tables, record: SaleRecord, lines: seq<LineRecord>, newId: Id, now: Timestamp,
                      headerOk: bool, itemsOk: bool)
    requires !headerOk || newId in t.sales || !itemsOk
    ensures CreateSpec(t, record, lines, newId, now, headerOk, itemsOk).1 == Failure(InsertFailed)
    ensures var t' := CreateSpec(t, record, lines, newId, now, headerOk, itemsOk).0;
      && t'.inventory == t.inventory && t'.customers == t.customers && t'.saleItems == t.saleItems
      && t'.sales.Keys <= t.sales.Keys + {newId}
    ensures !headerOk || newId in t.sales ==> CreateSpec(t, record, lines, newId, now, headerOk, itemsOk).0 == t
  {
  }

  /** A successful create stores the header under the new id, inserts exactly
      one row per line, each tagged with that id and in the given order, and
      leaves the lines of every other sale as they were. */
  lemma CreateItems(t: Tables, record: SaleRecord, lines: seq<LineRecord>, newId: Id, now: Timestamp)
    requires Consistent(t)
    requires newId !in t.sales
    ensures CreateSpec(t, record, lines, newId, now, true, true).1 == Success(Sale(newId, Some(now), record))
    ensures CreateSpec(t, record, lines, newId, now, true, true).0.sales == t.sales[newId := Sale(newId, Some(now), record)]
    ensures ItemsOf(CreateSpec(t, record, lines, newId, now, true, true).0.saleItems, newId) == Tag(newId, lines)
    ensures LinesOf(ItemsOf(CreateSpec(t, record, lines, newId, now, true, true).0.saleItems, newId)) == lines
    ensures forall s :: s in t.sales ==>
      ItemsOf(CreateSpec(t, record, lines, newId, now, true, true).0.saleItems, s) == ItemsOf(t.saleItems, s)
  {
    var rows := CreateSpec(t, record, lines, newId, now, true, true).0.saleItems;
    assert rows == t.saleItems + Tag(newId, lines);
    NewSaleItems(t.saleItems, lines, newId);
    forall s | s in t.sales
      ensures ItemsOf(rows, s) == ItemsOf(t.saleItems, s)
    {
      OtherSaleItems(t.saleItems, lines, newId, s);
    }
    assert LinesOf(Tag(newId, lines)) == lines;
  }

  /** Every outcome of a create keeps the tables consistent. */
  lemma CreateConsistent(t: Tables, record: SaleRecord, lines: seq<LineRecord>, newId: Id, now: Timestamp,
                         headerOk: bool, itemsOk: bool)
    requires Consistent(t)
    ensures Consistent(CreateSpec(t, record, lines, newId, now, headerOk, itemsOk).0)
  {
  }

  /** Appending a new sale's rows to a table that holds none of its rows: its
      rows are exactly the appended ones. */
  lemma NewSaleItems(rows: seq<SaleItem>, lines: seq<LineRecord>, newId: Id)
    requires forall k :: 0 <= k < |rows| ==> rows[k].saleId != newId
    ensures ItemsOf(rows + Tag(newId, lines), newId) == Tag(newId, lines)
  {
    KeepAppend(rows, Tag(newId, lines), ForSale(newId));
    KeepNone(rows, ForSale(newId));
    KeepAll(Tag(newId, lines), ForSale(newId));
  }

  /** Appending a new sale's rows leaves another sale's rows alone. */
  lemma OtherSaleItems(rows: seq<SaleItem>, lines: seq<LineRecord>, newId: Id, s: Id)
    requires s != newId
    ensures ItemsOf(rows + Tag(newId, lines), s) == ItemsOf(rows, s)
  {
    KeepAppend(rows, Tag(newId, lines), ForSale(s));
    KeepNone(Tag(newId, lines), ForSale(s));
  }

  /** `salesApi.refund(id)`: fetch the sale with its lines, mark it refunded,
      add each line's quantity back to stock, and take the total off the
      customer's purchases. There is no check of the sale's current status. */
  function RefundSpec(t: Tables, id: Id, statusOk: bool, now: Timestamp): (Tables, Result<Sale, ApiError>)
  {
    if id !in t.sales then (t, Failure(SaleNotFound))
    else if !statusOk then (t, Failure(UpdateFailed))
    else
      var sale := t.sales[id];
      var refunded := sale.(record := sale.record.(status := "refunded"));
      (t.(sales := t.sales[id := refunded],
          inventory := RestoreAll(t.inventory, LinesOf(ItemsOf(t.saleItems, id)), now),
          customers := WithoutPurchase(t.customers, sale.record.customerId, sale.record.total)),
       Success(refunded))
  }

  /** Refunding an unknown id throws 'Sale not found' and changes nothing; a
      failed status update also changes nothing. */
  lemma RefundFailure(t: Tables, id: Id, statusOk: bool, now: Timestamp)
    requires id !in t.sales || !statusOk
    ensures RefundSpec(t, id, statusOk, now).0 == t
    ensures RefundSpec(t, id, statusOk, now).1 ==
      if id !in t.sales then Failure(SaleNotFound) else Failure(UpdateFailed)
  {
  }

  /** A refund marks the sale refunded and leaves every other sale as it was,
      restores every line's quantity to each stock record that exists, takes the
      total off the sale's customer (clamped at zero, see `PurchaseEffects`),
      leaves loyalty points alone, and keeps the tables consistent. */
  lemma RefundEffect(t: Tables, id: Id, now: Timestamp, p: Id)
    requires Consistent(t)
    requires id in t.sales
    requires p in t.inventory
    ensures var (t', r) := RefundSpec(t, id, true, now);
      && r.Success? && r.value.id == id && r.value.record.status == "refunded"
      && t'.sales[id].record == t.sales[id].record.(status := "refunded")
      && t'.sales.Keys == t.sales.Keys
      && (forall o :: o in t.sales && o != id ==> t'.sales[o] == t.sales[o])
      && Consistent(t')
      && t'.saleItems == t.saleItems
      && t'.inventory[p].quantity == t.inventory[p].quantity + QuantityOf(LinesOf(ItemsOf(t.saleItems, id)), p)
      && (forall c :: c in t.customers ==> c in t'.customers && t'.customers[c].loyaltyPoints == t.customers[c].loyaltyPoints)
      && (forall c :: c in t'.customers ==> t'.customers[c].totalPurchases >= 0.0 || t'.customers[c] == t.customers[c])
      && t'.customers == WithoutPurchase(t.customers, t.sales[id].record.customerId, t.sales[id].record.total)
    ensures var (t', r) := RefundSpec(t, id, true, now);
      var cid := t.sales[id].record.customerId;
      && (Truthy(cid) && cid.value in t.customers ==>
            t'.customers[cid.value].totalPurchases == MaxReal(0.0, t.customers[cid.value].totalPurchases - t.sales[id].record.total))
      && (forall c :: c in t.customers && !(Truthy(cid) && c == cid.value) ==> t'.customers[c] == t.customers[c])
  {
    RestoreAllAt(t.inventory, LinesOf(ItemsOf(t.saleItems, id)), now, p);
    var sale := t.sales[id];
    PurchaseEffects(t.customers, sale.record.customerId, sale.record.total);
  }

  /** With no status guard, refunding the same sale twice succeeds both times and
      puts its quantities back into stock twice. */
  lemma RefundTwice(t: Tables, id: Id, now: Timestamp, p: Id)
    requires Consistent(t)
    requires id in t.sales
    requires p in t.inventory
    ensures var (t1, r1) := RefundSpec(t, id, true, now);
      var (t2, r2) := RefundSpec(t1, id, true, now);
      && r1.Success? && r2.Success?
      && t2.sales[id].record.status == "refunded"
      && t2.inventory[p].quantity == t.inventory[p].quantity + 2 * QuantityOf(LinesOf(ItemsOf(t.saleItems, id)), p)
  {
    var t1 := RefundSpec(t, id, true, now).0;
    RefundEffect(t, id, now, p);
    RefundEffect(t1, id, now, p);
  }

  /** Selling one line and refunding it gives the stock back only when the stock
      covered the sale; an oversold product ends with the sold quantity, not its
      original count, because the decrement clamped at zero. */
  lemma SaleThenRefund(t: Tables, record: SaleRecord, line: LineRecord, newId: Id, now: Timestamp)
    requires Consistent(t)
    requires newId !in t.sales
    requires line.productId in t.inventory
    ensures RefundSpec(CreateSpec(t, record, [line], newId, now, true, true).0, newId, true, now).0.inventory[line.productId].quantity
      == MaxInt(0, t.inventory[line.productId].quantity - line.quantity) + line.quantity
    ensures t.inventory[line.productId].quantity >= line.quantity ==>
      RefundSpec(CreateSpec(t, record, [line], newId, now, true, true).0, newId, true, now).0.inventory[line.productId].quantity
      == t.inventory[line.productId].quantity
  {
    var p := line.productId;
    var t1 := CreateSpec(t, record, [line], newId, now, true, true).0;
    CreateItems(t, record, [line], newId, now);
    assert DistinctProducts([line]);
    DecrementAllAt(t.inventory, [line], now, p);
    assert t1.inventory[p].quantity == MaxInt(0, t.inventory[p].quantity - line.quantity);
    assert LinesOf(ItemsOf(t1.saleItems, newId)) == [line];
    RestoreAllAt(t1.inventory, [line], now, p);
    assert QuantityOf([line], p) == line.quantity by {
      assert [line][..0] == [];
    }
  }

  /** The joined view of a stored sale that `getById` returns. The cashier join
      needs the profiles table, which this model does not hold. */
  function ViewOf(t: Tables, id: Id): (v: Option<SaleView>)
    ensures v.Some? <==> id in t.sales
    ensures v.Some? ==> v.value.sale == t.sales[id] && v.value.items == Some(ItemsOf(t.saleItems, id))
  {
    if id !in t.sales then None
    else
      var sale := t.sales[id];
      var customer := if Truthy(sale.record.customerId) && sale.record.customerId.value in t.customers
                      then Some(t.customers[sale.record.customerId.value]) else None;
      Some(SaleView(sale, customer, None, Some(ItemsOf(t.saleItems, id))))
  }

  // ---------------------------------------------------------------------
  // Invoice numbers

  predicate NotDash(c: char)
  {
    c != '-'
  }

  /** `iso.slice(0, 10).replace(/-/g, '')`. */
  function DateDigits(iso: Timestamp): string
  {
    Keep(if |iso| >= 10 then iso[..10] else iso, NotDash)
  }

  /** `generateInvoiceNumber()`, given the current ISO time and the drawn
      `Math.floor(Math.random() * 10000)`. */
  function GenerateInvoiceNumber(iso: Timestamp, random: nat): string
  {
    "INV-" + DateDigits(iso) + "-" + PadStart(NatToString(random), 4, '0')
  }

  /** The ISO time starts with a `YYYY-MM-DD` date. */
  predicate StartsWithIsoDate(iso: Timestamp)
  {
    && |iso| >= 10
    && iso[4] == '-' && iso[7] == '-'
    && (forall i :: 0 <= i < 10 && i != 4 && i != 7 ==> IsDigit(iso[i]))
  }

  /** An invoice number is `INV-`, the eight digits `YYYYMMDD`, `-`, and four
      digits that read back as the drawn number. */
  lemma InvoiceNumberFormat(iso: Timestamp, random: nat)
    requires StartsWithIsoDate(iso)
    requires random < 10000
    ensures |GenerateInvoiceNumber(iso, random)| == 17
    ensures GenerateInvoiceNumber(iso, random)[..4] == "INV-"
    ensures GenerateInvoiceNumber(iso, random)[4..12] == iso[..4] + iso[5..7] + iso[8..10]
    ensures AllDigits(GenerateInvoiceNumber(iso, random)[4..12])
    ensures GenerateInvoiceNumber(iso, random)[12] == '-'
    ensures AllDigits(GenerateInvoiceNumber(iso, random)[13..])
    ensures DigitsValue(GenerateInvoiceNumber(iso, random)[13..]) == random
  {
    var date := DateDigits(iso);
    IsoDateDigits(iso);
    var padded := PadStart(NatToString(random), 4, '0');
    RandomSuffix(random);
    assert |date| == 8;
    Pieces("INV-", date, '-', padded);
  }

  /** The parts of `a + b + [c] + d` can be cut back out by position. */
  lemma Pieces(a: string, b: string, c: char, d: string)
    ensures (a + b + [c] + d)[..|a|] == a
    ensures (a + b + [c] + d)[|a|..|a| + |b|] == b
    ensures (a + b + [c] + d)[|a| + |b|] == c
    ensures (a + b + [c] + d)[|a| + |b| + 1..] == d
  {
  }

  /** The dashes of a `YYYY-MM-DD` prefix are dropped and its eight digits kept. */
  lemma IsoDateDigits(iso: Timestamp)
    requires StartsWithIsoDate(iso)
    ensures DateDigits(iso) == iso[..4] + iso[5..7] + iso[8..10]
    ensures AllDigits(DateDigits(iso))
  {
    assert iso[..10] == iso[..5] + iso[5..10];
    KeepAppend(iso[..5], iso[5..10], NotDash);
    YearDigits(iso);
    MonthDayDigits(iso);
  }

  lemma YearDigits(iso: Timestamp)
    requires StartsWithIsoDate(iso)
    ensures Keep(iso[..5], NotDash) == iso[..4]
  {
    var a := iso[..5];
    assert forall j :: 0 <= j < 5 && j != 4 ==> a[j] == iso[j] && IsDigit(iso[j]);
    KeepDropOne(a, 4, NotDash);
    assert a[..4] + a[5..] == iso[..4];
  }

  lemma MonthDayDigits(iso: Timestamp)
    requires StartsWithIsoDate(iso)
    ensures Keep(iso[5..10], NotDash) == iso[5..7] + iso[8..10]
  {
    var b := iso[5..10];
    assert forall j :: 0 <= j < 5 && j != 2 ==> b[j] == iso[j + 5] && IsDigit(iso[j + 5]);
    KeepDropOne(b, 2, NotDash);
    assert b[..2] + b[3..] == iso[5..7] + iso[8..10];
  }

  /** The random part is four digits that read back as the drawn number. */
  lemma RandomSuffix(random: nat)
    requires random < 10000
    ensures |PadStart(NatToString(random), 4, '0')| == 4
    ensures AllDigits(PadStart(NatToString(random), 4, '0'))
    ensures DigitsValue(PadStart(NatToString(random), 4, '0')) == random
  {
    NatToStringLength(random, 4);
    NatToStringRoundTrip(random);
    PadStartValue(NatToString(random), 4);
  }

  // ---------------------------------------------------------------------
  // The data-access object

  class Database {
    var inventory: map<Id, Inventory>
    var customers: map<Id, Customer>
    var sales: map<Id, Sale>
    var saleItems: seq<SaleItem>

    function State(): Tables
      reads this
    {
      Tables(inventory, customers, sales, saleItems)
    }

    constructor (initial: Tables)
      ensures State() == initial
    {
      inventory := initial.inventory;
      customers := initial.customers;
      sales := initial.sales;
      saleItems := initial.saleItems;
    }

    /** `inventoryApi.getByProductId`. */
    method GetByProductId(productId: Id) returns (r: Option<Inventory>)
      ensures r.Some? <==> productId in inventory
      ensures r.Some? ==> r.value == inventory[productId]
    {
      if productId in inventory {
        r := Some(inventory[productId]);
      } else {
        r := None;
      }
    }

    /** `inventoryApi.updateQuantity`: with no matching row, `.single()` throws. */
    method UpdateQuantity(productId: Id, quantity: int, now: Timestamp) returns (r: Result<Inventory, ApiError>)
      modifies this
      ensures inventory == SetQuantity(old(inventory), productId, quantity, now)
      ensures customers == old(customers) && sales == old(sales) && saleItems == old(saleItems)
      ensures r.Success? <==> productId in old(inventory)
      ensures r.Success? ==> r.value == inventory[productId]
    {
      if productId in inventory {
        inventory := inventory[productId := inventory[productId].(quantity := quantity, lastRestockedAt := Some(now))];
        r := Success(inventory[productId]);
      } else {
        r := Failure(UpdateFailed);
      }
    }

    /** `inventoryApi.decrementQuantity`: read the record, then write the clamped quantity. */
    method DecrementQuantity(productId: Id, amount: int, now: Timestamp)
      modifies this
      ensures inventory == Decremented(old(inventory), productId, amount, now)
      ensures customers == old(customers) && sales == old(sales) && saleItems == old(saleItems)
    {
      var record := GetByProductId(productId);
      if record.Some? {
        var newQuantity := MaxInt(0, record.value.quantity - amount);
        var _ := UpdateQuantity(productId, newQuantity, now);
      }
    }

    /** `customersApi.addLoyaltyPoints`: read the customer, then write the sum. */
    method AddLoyaltyPoints(id: Id, points: int)
      modifies this
      ensures customers == WithPoints(old(customers), id, points)
      ensures inventory == old(inventory) && sales == old(sales) && saleItems == old(saleItems)
    {
      if id in customers {
        var customer := customers[id];
        customers := customers[id := customer.(loyaltyPoints := customer.loyaltyPoints + points)];
      }
    }

    /** `salesApi.create`. */
    method CreateSale(record: SaleRecord, lines: seq<LineRecord>, newId: Id, now: Timestamp,
                      headerOk: bool, itemsOk: bool) returns (r: Result<Sale, ApiError>)
      modifies this
      ensures State() == CreateSpec(old(State()), record, lines, newId, now, headerOk, itemsOk).0
      ensures r == CreateSpec(old(State()), record, lines, newId, now, headerOk, itemsOk).1
    {
      if !headerOk || newId in sales {
        return Failure(InsertFailed);
      }
      var header := Sale(newId, Some(now), record);
      sales := sales[newId := header];
      if !itemsOk {
        return Failure(InsertFailed);
      }
      saleItems := saleItems + Tag(newId, lines);
      DecrementStock(lines, now);
      AddPurchase(record.customerId, record.total);
      r := Success(header);
    }

    /** `salesApi.refund`. */
    method Refund(id: Id, statusOk: bool, now: Timestamp) returns (r: Result<Sale, ApiError>)
      modifies this
      ensures State() == RefundSpec(old(State()), id, statusOk, now).0
      ensures r == RefundSpec(old(State()), id, statusOk, now).1
    {
      if id !in sales {
        return Failure(SaleNotFound);
      }
      var sale := sales[id];
      var lines := LinesOf(ItemsOf(saleItems, id));
      if !statusOk {
        return Failure(UpdateFailed);
      }
      var refunded := sale.(record := sale.record.(status := "refunded"));
      sales := sales[id := refunded];
      RestoreStock(lines, now);
      RemovePurchase(sale.record.customerId, sale.record.total);
      r := Success(refunded);
    }

    /** The decrement loop of `create`: one `decrementQuantity` per line, in order. */
    method DecrementStock(lines: seq<LineRecord>, now: Timestamp)
      modifies this
      ensures inventory == DecrementAll(old(inventory), lines, now)
      ensures customers == old(customers) && sales == old(sales) && saleItems == old(saleItems)
    {
      var k := 0;
      while k < |lines|
        invariant 0 <= k <= |lines|
        invariant inventory == DecrementAll(old(inventory), lines[..k], now)
        invariant customers == old(customers) && sales == old(sales) && saleItems == old(saleItems)
      {
        assert lines[..k + 1][..k] == lines[..k];
        DecrementQuantity(lines[k].productId, lines[k].quantity, now);
        k := k + 1;
      }
      assert lines[..k] == lines;
    }

    /** The restock loop of `refund`: read each line's stock record and, when
        there is one, write it back with the line's quantity added. */
    method RestoreStock(lines: seq<LineRecord>, now: Timestamp)
      modifies this
      ensures inventory == RestoreAll(old(inventory), lines, now)
      ensures customers == old(customers) && sales == old(sales) && saleItems == old(saleItems)
    {
      var k := 0;
      while k < |lines|
        invariant 0 <= k <= |lines|
        invariant inventory == RestoreAll(old(inventory), lines[..k], now)
        invariant customers == old(customers) && sales == old(sales) && saleItems == old(saleItems)
      {
        assert lines[..k + 1][..k] == lines[..k];
        var record := GetByProductId(lines[k].productId);
        if record.Some? {
          var _ := UpdateQuantity(lines[k].productId, record.value.quantity + lines[k].quantity, now);
        }
        k := k + 1;
      }
      assert lines[..k] == lines;
    }

    /** The customer update of `create`. */
    method AddPurchase(customerId: Option<Id>, total: real)
      modifies this
      ensures customers == WithPurchase(old(customers), customerId, total)
      ensures inventory == old(inventory) && sales == old(sales) && saleItems == old(saleItems)
    {
      if Truthy(customerId) {
        var cid := customerId.value;
        if cid in customers {
          var customer := customers[cid];
          customers := customers[cid := customer.(totalPurchases := customer.totalPurchases + total)];
        }
      }
    }

    /** The customer update of `refund`. */
    method RemovePurchase(customerId: Option<Id>, total: real)
      modifies this
      ensures customers == WithoutPurchase(old(customers), customerId, total)
      ensures inventory == old(inventory) && sales == old(sales) && saleItems == old(saleItems)
    {
      if Truthy(customerId) {
        var cid := customerId.value;
        if cid in customers {
          var customer := customers[cid];
          customers := customers[cid := customer.(totalPurchases := MaxReal(0.0, customer.totalPurchases - total))];
        }
      }
    }
  }
}
