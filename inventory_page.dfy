/** The stock page: the stock table with its low-stock badges, the low-stock
    alert above it, and the dialog that edits one record. */
module InventoryPage {
  import opened Common
  import opened Types
  import opened Seqs

  /** `item.quantity <= item.min_quantity`, the one test both the alert and the
      badges use. */
  predicate IsLow(row: InventoryRow)
  {
    row.stock.quantity <= row.stock.minQuantity
  }

  /** `lowStockItems`. */
  function LowStockItems(rows: seq<InventoryRow>): seq<InventoryRow>
  {
    Keep(rows, IsLow)
  }

  /** The alert lists exactly the records at or under their minimum, in table
      order, and counts them. */
  lemma LowStockExact(rows: seq<InventoryRow>, row: InventoryRow)
    ensures row in LowStockItems(rows) <==> row in rows && row.stock.quantity <= row.stock.minQuantity
    ensures |LowStockItems(rows)| == Count(rows, IsLow)
  {
    KeepContains(rows, IsLow, row);
  }

  datatype Badge = LowStockBadge | InStockBadge

  function BadgeOf(row: InventoryRow): (b: Badge)
    ensures b == LowStockBadge <==> row.stock.quantity <= row.stock.minQuantity
  {
    if IsLow(row) then LowStockBadge else InStockBadge
  }

  /** A table row carries the low-stock badge exactly when it is in the alert. */
  lemma BadgeMatchesAlert(rows: seq<InventoryRow>, k: nat)
    requires k < |rows|
    ensures BadgeOf(rows[k]) == LowStockBadge <==> rows[k] in LowStockItems(rows)
  {
    KeepContains(rows, IsLow, rows[k]);
  }

  /** The alert card is shown only when something is low. */
  predicate AlertShown(rows: seq<InventoryRow>)
  {
    |LowStockItems(rows)| > 0
  }

  lemma AlertIffSomeLow(rows: seq<InventoryRow>)
    ensures AlertShown(rows) <==> exists k :: 0 <= k < |rows| && BadgeOf(rows[k]) == LowStockBadge
  {
    if AlertShown(rows) {
      var row := LowStockItems(rows)[0];
      KeepContains(rows, IsLow, row);
      var k :| 0 <= k < |rows| && rows[k] == row;
      assert BadgeOf(rows[k]) == LowStockBadge;
    } else if exists k :: 0 <= k < |rows| && BadgeOf(rows[k]) == LowStockBadge {
      var k :| 0 <= k < |rows| && BadgeOf(rows[k]) == LowStockBadge;
      KeepContains(rows, IsLow, rows[k]);
      assert false;
    }
  }

  /** The dialog's two numbers, as `parseInt` reads them. */
  datatype StockForm = StockForm(quantity: int, minQuantity: int)

  /** `inventoryApi.upsert` with the edited record's product, the two numbers,
      and the restock time. */
  datatype Request = UpsertStock(productId: Id, quantity: int, minQuantity: int, lastRestockedAt: Timestamp)

  datatype Notice = LoadFailed | Updated | UpdateFailed

  class InventoryPage {
    var rows: seq<InventoryRow>
    var dialogOpen: bool
    var editing: Option<Inventory>
    var form: StockForm
    var processing: bool
    var requests: seq<Request>
    var notices: seq<Notice>

    constructor()
      ensures rows == [] && !dialogOpen && editing == None && !processing && requests == [] && notices == []
    {
      rows := [];
      dialogOpen := false;
      editing := None;
      form := StockForm(0, 0);
      processing := false;
      requests := [];
      notices := [];
    }

    /** The rows in the alert. */
    function Alert(): seq<InventoryRow>
      reads this
    {
      LowStockItems(rows)
    }

    /** `loadInventory`: `data` is the joined stock list, `None` when the read throws. */
    method LoadInventory(data: Option<seq<InventoryRow>>)
      modifies this
      ensures data.Some? ==> rows == data.value && notices == old(notices)
      ensures data.None? ==> rows == old(rows) && notices == old(notices) + [LoadFailed]
      ensures dialogOpen == old(dialogOpen) && editing == old(editing) && form == old(form)
      ensures processing == old(processing) && requests == old(requests)
    {
      if data.Some? {
        rows := data.value;
      } else {
        notices := notices + [LoadFailed];
      }
    }

    /** `handleOpenDialog`: the form starts from the record's own numbers. */
    method OpenDialog(row: InventoryRow)
      modifies this
      ensures editing == Some(row.stock) && dialogOpen
      ensures form == StockForm(row.stock.quantity, row.stock.minQuantity)
      ensures rows == old(rows) && processing == old(processing)
      ensures requests == old(requests) && notices == old(notices)
    {
      editing := Some(row.stock);
      form := StockForm(row.stock.quantity, row.stock.minQuantity);
      dialogOpen := true;
    }

    /** `handleSubmit`: nothing without an edited record; otherwise one upsert
        of its product with the form's numbers, stamped `now`. */
    method HandleSubmit(now: Timestamp, upsertOk: bool, reloaded: Option<seq<InventoryRow>>)
      modifies this
      ensures old(editing).None? ==>
        requests == old(requests) && notices == old(notices) && rows == old(rows)
        && dialogOpen == old(dialogOpen) && processing == old(processing)
      ensures old(editing).Some? ==>
        && requests == old(requests) + [UpsertStock(old(editing).value.productId, old(form).quantity,
                                                    old(form).minQuantity, now)]
        && !processing
      ensures old(editing).Some? && upsertOk ==>
        && !dialogOpen
        && rows == (if reloaded.Some? then reloaded.value else old(rows))
        && notices == old(notices) + [Updated] + (if reloaded.Some? then [] else [LoadFailed])
      ensures old(editing).Some? && !upsertOk ==>
        dialogOpen == old(dialogOpen) && rows == old(rows) && notices == old(notices) + [UpdateFailed]
      ensures editing == old(editing) && form == old(form)
    {
      if editing.None? {
        return;
      }
      processing := true;
      requests := requests + [UpsertStock(editing.value.productId, form.quantity, form.minQuantity, now)];
      if upsertOk {
        notices := notices + [Updated];
        dialogOpen := false;
        LoadInventory(reloaded);
      } else {
        notices := notices + [UpdateFailed];
      }
      processing := false;
    }
  }
}
