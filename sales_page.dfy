/** The sales history page: the searchable list of recent sales, the details
    dialog, and the refund action it offers. */
module SalesPage {
  import opened Common
  import opened Types
  import opened Text
  import opened Store
  import Search

  /** The status badge: `completed`, or the refunded label for any other status. */
  datatype StatusBadge = CompletedBadge | RefundedBadge

  function StatusOf(status: string): (b: StatusBadge)
    ensures b == CompletedBadge <==> status == "completed"
    ensures b == RefundedBadge <==> status != "completed"
  {
    if status == "completed" then CompletedBadge else RefundedBadge
  }

  /** The payment method shown in the details dialog. */
  datatype PaymentBadge = CashBadge | CardBadge | CreditBadge

  function PaymentOf(payment: string): (b: PaymentBadge)
    ensures b == CashBadge <==> payment == "cash"
    ensures b == CardBadge <==> payment == "card"
    ensures b == CreditBadge <==> payment != "cash" && payment != "card"
  {
    if payment == "cash" then CashBadge else if payment == "card" then CardBadge else CreditBadge
  }

  /** The fields the sales search looks at: the invoice number, then the
      customer's name when the sale has a customer. */
  function SaleFields(view: SaleView): seq<Option<string>>
  {
    [Some(view.sale.record.invoiceNumber), if view.customer.Some? then Some(view.customer.value.name) else None]
  }

  function FilteredSales(sales: seq<SaleView>, term: string, lower: string -> string): seq<SaleView>
  {
    Search.Search(sales, SaleFields, term, lower)
  }

  /** A sale is listed exactly when its invoice number or its customer's name
      contains the term in lower case; an empty term lists every loaded sale. */
  lemma FilteredSalesShows(sales: seq<SaleView>, term: string, lower: string -> string, view: SaleView)
    ensures view in FilteredSales(sales, term, lower) <==>
      (view in sales
       && (Contains(lower(view.sale.record.invoiceNumber), lower(term))
           || (view.customer.Some? && Contains(lower(view.customer.value.name), lower(term)))))
    ensures lower(term) == "" ==> FilteredSales(sales, term, lower) == sales
  {
    Search.SearchShows(sales, SaleFields, term, lower, view);
    Search.AnyFieldTwo(Some(view.sale.record.invoiceNumber),
                       if view.customer.Some? then Some(view.customer.value.name) else None, term, lower);
  }

  /** The buttons of the details dialog's footer. */
  datatype DialogButton = CloseButton | PrintButton | RefundButton

  /** Close is always offered; print and refund only for a completed sale. */
  function DialogButtons(selected: Option<SaleView>): (buttons: seq<DialogButton>)
    ensures buttons != [] && buttons[0] == CloseButton
    ensures RefundButton in buttons <==> selected.Some? && selected.value.sale.record.status == "completed"
    ensures PrintButton in buttons <==> selected.Some? && selected.value.sale.record.status == "completed"
  {
    if selected.Some? && selected.value.sale.record.status == "completed"
    then [CloseButton, PrintButton, RefundButton]
    else [CloseButton]
  }

  /** The store lets a sale be refunded twice, but the page does not: once a
      refund succeeds, the same sale opened again offers no refund button. */
  lemma RefundOfferedOnce(t: Tables, id: Id, statusOk: bool, now: Timestamp)
    requires RefundSpec(t, id, statusOk, now).1.Success?
    ensures ViewOf(t, id).Some?
    ensures ViewOf(RefundSpec(t, id, statusOk, now).0, id).Some?
    ensures RefundButton !in DialogButtons(ViewOf(RefundSpec(t, id, statusOk, now).0, id))
  {
    var t' := RefundSpec(t, id, statusOk, now).0;
    assert t'.sales[id].record.status == "refunded";
  }

  /** The messages the page shows. */
  datatype Notice = LoadFailed | DetailsFailed | RefundSucceeded | RefundFailed

  class SalesPage {
    var sales: seq<SaleView>
    var searchTerm: string
    var selected: Option<SaleView>
    var detailsOpen: bool
    var refunding: bool
    var notices: seq<Notice>

    constructor()
      ensures sales == [] && searchTerm == "" && selected == None
      ensures !detailsOpen && !refunding && notices == []
    {
      sales := [];
      searchTerm := "";
      selected := None;
      detailsOpen := false;
      refunding := false;
      notices := [];
    }

    /** The rows on screen. */
    function Listed(lower: string -> string): seq<SaleView>
      reads this
    {
      FilteredSales(sales, searchTerm, lower)
    }

    /** `loadSales`: `data` is what `salesApi.getAll` returns, `None` when it throws. */
    method LoadSales(data: Option<seq<SaleView>>)
      modifies this
      ensures data.Some? ==> sales == data.value && notices == old(notices)
      ensures data.None? ==> sales == old(sales) && notices == old(notices) + [LoadFailed]
      ensures searchTerm == old(searchTerm) && selected == old(selected)
      ensures detailsOpen == old(detailsOpen) && refunding == old(refunding)
    {
      if data.Some? {
        sales := data.value;
      } else {
        notices := notices + [LoadFailed];
      }
    }

    /** `handleViewDetails`: `salesApi.getById` returns the joined sale, or
        nothing for an unknown id, and the dialog opens either way; `fetchOk`
        is false when the query throws, which leaves the dialog as it was. */
    method ViewDetails(db: Database, saleId: Id, fetchOk: bool)
      modifies this
      ensures fetchOk ==> selected == ViewOf(db.State(), saleId) && detailsOpen && notices == old(notices)
      ensures !fetchOk ==> selected == old(selected) && detailsOpen == old(detailsOpen)
                           && notices == old(notices) + [DetailsFailed]
      ensures sales == old(sales) && searchTerm == old(searchTerm) && refunding == old(refunding)
    {
      if fetchOk {
        selected := ViewOf(db.State(), saleId);
        detailsOpen := true;
      } else {
        notices := notices + [DetailsFailed];
      }
    }

    /** `handleRefund`: nothing happens without a selected sale. Otherwise the
        store refunds it; on success the dialog closes and the list reloads
        (`reloaded` is what the reload returns), on failure only an error is
        shown. The busy flag is set for the duration and cleared at the end. */
    method HandleRefund(db: Database, statusOk: bool, now: Timestamp, reloaded: Option<seq<SaleView>>)
      returns (r: Option<Result<Sale, ApiError>>)
      modifies this, db
      ensures old(selected).None? ==>
        r.None? && db.State() == old(db.State())
        && sales == old(sales) && detailsOpen == old(detailsOpen) && notices == old(notices)
        && refunding == old(refunding)
      ensures old(selected).Some? ==> !refunding
      ensures old(selected).Some? ==>
        && r == Some(RefundSpec(old(db.State()), old(selected).value.sale.id, statusOk, now).1)
        && db.State() == RefundSpec(old(db.State()), old(selected).value.sale.id, statusOk, now).0
      ensures r.Some? && r.value.Success? ==>
        && !detailsOpen
        && sales == (if reloaded.Some? then reloaded.value else old(sales))
        && notices == old(notices) + [RefundSucceeded] + (if reloaded.Some? then [] else [LoadFailed])
      ensures r.Some? && r.value.Failure? ==>
        detailsOpen == old(detailsOpen) && sales == old(sales) && notices == old(notices) + [RefundFailed]
      ensures selected == old(selected) && searchTerm == old(searchTerm)
    {
      if selected.None? {
        return None;
      }
      refunding := true;
      var outcome := db.Refund(selected.value.sale.id, statusOk, now);
      if outcome.Success? {
        notices := notices + [RefundSucceeded];
        detailsOpen := false;
        LoadSales(reloaded);
      } else {
        notices := notices + [RefundFailed];
      }
      refunding := false;
      r := Some(outcome);
    }
  }
}
