/** The customers page: the searchable customer table, the create/edit dialog
    and the delete confirmation. */
module CustomersPage {
  import opened Common
  import opened Types
  import opened Text
  import Search

  datatype CustomerForm = CustomerForm(name: string, email: string, phone: string)

  const BlankForm := CustomerForm("", "", "")

  /** The form pre-filled from the customer being edited. */
  function FormFor(c: Customer): (f: CustomerForm)
    ensures f.name == c.name
    ensures f.email == "" <==> c.email.None? || c.email == Some("")
    ensures f.phone == "" <==> c.phone.None? || c.phone == Some("")
  {
    CustomerForm(c.name, OrBlank(c.email), OrBlank(c.phone))
  }

  /** `customerData`: the contact columns, an empty email or phone sent as `undefined`. */
  datatype CustomerData = CustomerData(name: string, email: Option<string>, phone: Option<string>)

  /** The data, built only once a name is entered. */
  function Submission(form: CustomerForm): (r: Option<CustomerData>)
    ensures r.None? <==> form.name == ""
    ensures r.Some? ==> r.value.name == form.name
    ensures r.Some? ==> (r.value.email.None? <==> form.email == "")
    ensures r.Some? ==> (r.value.phone.None? <==> form.phone == "")
  {
    if form.name == "" then None else Some(CustomerData(form.name, NonEmpty(form.email), NonEmpty(form.phone)))
  }

  datatype Request =
    | CreateCustomer(data: CustomerData, loyaltyPoints: int, totalPurchases: real)
    | UpdateCustomer(id: Id, data: CustomerData)
    | DeleteCustomer(id: Id)

  /** The calls `handleSubmit` makes: none without a name; an update carrying
      only the contact columns; or a create that starts both counters at zero. */
  function SubmitRequests(form: CustomerForm, editing: Option<Customer>): (r: seq<Request>)
    ensures r == [] <==> form.name == ""
    ensures |r| <= 1
    ensures r != [] && editing.Some? ==> r[0] == UpdateCustomer(editing.value.id, Submission(form).value)
    ensures r != [] && editing.None? ==> r[0] == CreateCustomer(Submission(form).value, 0, 0.0)
  {
    match Submission(form)
    case None => []
    case Some(data) =>
      if editing.Some? then [UpdateCustomer(editing.value.id, data)] else [CreateCustomer(data, 0, 0.0)]
  }

  /** `customersApi.update`: the payload goes through `JSON.stringify`, which
      drops a key whose value is `undefined`, so an absent email or phone leaves
      the stored column as it was; every column not in the payload is kept. */
  function ApplyUpdate(c: Customer, data: CustomerData): (r: Customer)
    ensures r.id == c.id && r.name == data.name
    ensures data.email.Some? ==> r.email == data.email
    ensures data.email.None? ==> r.email == c.email
    ensures data.phone.Some? ==> r.phone == data.phone
    ensures data.phone.None? ==> r.phone == c.phone
    ensures r.loyaltyPoints == c.loyaltyPoints && r.totalPurchases == c.totalPurchases
  {
    c.(name := data.name,
       email := if data.email.Some? then data.email else c.email,
       phone := if data.phone.Some? then data.phone else c.phone)
  }

  /** Clearing the email or phone field in the dialog does not clear the stored
      contact: the cleared field is sent as `undefined` and so never written. */
  lemma ClearedContactKept(c: Customer, form: CustomerForm)
    requires form.name != ""
    ensures form.email == "" ==> ApplyUpdate(c, Submission(form).value).email == c.email
    ensures form.phone == "" ==> ApplyUpdate(c, Submission(form).value).phone == c.phone
  {
  }

  /** An edit never writes the loyalty points or the purchase total, and saving
      an unchanged form gives the customer back. */
  lemma EditKeepsCounters(c: Customer, form: CustomerForm)
    requires Submission(form).Some?
    ensures ApplyUpdate(c, Submission(form).value).loyaltyPoints == c.loyaltyPoints
    ensures ApplyUpdate(c, Submission(form).value).totalPurchases == c.totalPurchases
    ensures c.name != "" ==> Submission(FormFor(c)).Some? && ApplyUpdate(c, Submission(FormFor(c)).value) == c
  {
    if c.name != "" {
      if c.email != Some("") { BlankRoundTrip(c.email); }
      if c.phone != Some("") { BlankRoundTrip(c.phone); }
    }
  }

  /** The fields the customer search looks at: the name, the email, the phone. */
  function CustomerFields(c: Customer): seq<Option<string>>
  {
    [Some(c.name), c.email, c.phone]
  }

  function FilteredCustomers(customers: seq<Customer>, term: string, lower: string -> string): seq<Customer>
  {
    Search.Search(customers, CustomerFields, term, lower)
  }

  /** A customer is listed exactly when the name, email or phone contains the
      term in lower case; an empty term lists every customer. */
  lemma FilteredCustomersShows(customers: seq<Customer>, term: string, lower: string -> string, c: Customer)
    ensures c in FilteredCustomers(customers, term, lower) <==>
      (c in customers
       && (Contains(lower(c.name), lower(term))
           || (c.email.Some? && Contains(lower(c.email.value), lower(term)))
           || (c.phone.Some? && Contains(lower(c.phone.value), lower(term)))))
    ensures lower(term) == "" ==> FilteredCustomers(customers, term, lower) == customers
  {
    Search.SearchShows(customers, CustomerFields, term, lower, c);
    Search.AnyFieldThree(Some(c.name), c.email, c.phone, term, lower);
  }

  datatype Notice = LoadFailed | MissingName | Saved | SaveFailed | Deleted | DeleteFailed

  class CustomersPage {
    var customers: seq<Customer>
    var dialogOpen: bool
    var deleteDialogOpen: bool
    var editing: Option<Customer>
    var toDelete: Option<Customer>
    var form: CustomerForm
    var processing: bool
    var requests: seq<Request>
    var notices: seq<Notice>

    constructor()
      ensures customers == [] && !dialogOpen && !deleteDialogOpen && editing == None && toDelete == None
      ensures form == BlankForm && !processing && requests == [] && notices == []
    {
      customers := [];
      dialogOpen := false;
      deleteDialogOpen := false;
      editing := None;
      toDelete := None;
      form := BlankForm;
      processing := false;
      requests := [];
      notices := [];
    }

    /** `loadCustomers`: `data` is the list read back, `None` when the read throws. */
    method LoadCustomers(data: Option<seq<Customer>>)
      modifies this
      ensures data.Some? ==> customers == data.value && notices == old(notices)
      ensures data.None? ==> customers == old(customers) && notices == old(notices) + [LoadFailed]
      ensures dialogOpen == old(dialogOpen) && deleteDialogOpen == old(deleteDialogOpen)
      ensures editing == old(editing) && toDelete == old(toDelete) && form == old(form)
      ensures processing == old(processing) && requests == old(requests)
    {
      if data.Some? {
        customers := data.value;
      } else {
        notices := notices + [LoadFailed];
      }
    }

    /** `handleOpenDialog`. */
    method OpenDialog(customer: Option<Customer>)
      modifies this
      ensures editing == customer && dialogOpen
      ensures form == (if customer.Some? then FormFor(customer.value) else BlankForm)
      ensures customers == old(customers) && deleteDialogOpen == old(deleteDialogOpen) && toDelete == old(toDelete)
      ensures processing == old(processing) && requests == old(requests) && notices == old(notices)
    {
      editing := customer;
      form := if customer.Some? then FormFor(customer.value) else BlankForm;
      dialogOpen := true;
    }

    /** `handleSubmit`: `saveOk` says whether the create or update call succeeds. */
    method HandleSubmit(saveOk: bool, reloaded: Option<seq<Customer>>)
      modifies this
      ensures requests == old(requests) + SubmitRequests(old(form), old(editing))
      ensures old(form).name == "" ==>
        && notices == old(notices) + [MissingName]
        && dialogOpen == old(dialogOpen) && customers == old(customers) && processing == old(processing)
      ensures old(form).name != "" && saveOk ==>
        && !dialogOpen
        && customers == (if reloaded.Some? then reloaded.value else old(customers))
        && notices == old(notices) + [Saved] + (if reloaded.Some? then [] else [LoadFailed])
        && !processing
      ensures old(form).name != "" && !saveOk ==>
        && dialogOpen == old(dialogOpen) && customers == old(customers)
        && notices == old(notices) + [SaveFailed] && !processing
      ensures form == old(form) && editing == old(editing) && toDelete == old(toDelete)
      ensures deleteDialogOpen == old(deleteDialogOpen)
    {
      var data := Submission(form);
      if data.None? {
        notices := notices + [MissingName];
        return;
      }
      processing := true;
      if editing.Some? {
        requests := requests + [UpdateCustomer(editing.value.id, data.value)];
      } else {
        requests := requests + [CreateCustomer(data.value, 0, 0.0)];
      }
      if saveOk {
        notices := notices + [Saved];
        dialogOpen := false;
        LoadCustomers(reloaded);
      } else {
        notices := notices + [SaveFailed];
      }
      processing := false;
    }

    /** The table's delete button. */
    method AskDelete(c: Customer)
      modifies this
      ensures toDelete == Some(c) && deleteDialogOpen
      ensures customers == old(customers) && dialogOpen == old(dialogOpen) && editing == old(editing)
      ensures form == old(form) && processing == old(processing)
      ensures requests == old(requests) && notices == old(notices)
    {
      toDelete := Some(c);
      deleteDialogOpen := true;
    }

    /** `handleDelete`: nothing without a customer to delete. */
    method HandleDelete(deleteOk: bool, reloaded: Option<seq<Customer>>)
      modifies this
      ensures old(toDelete).None? ==>
        requests == old(requests) && notices == old(notices) && customers == old(customers)
        && deleteDialogOpen == old(deleteDialogOpen) && processing == old(processing)
      ensures old(toDelete).Some? ==> requests == old(requests) + [DeleteCustomer(old(toDelete).value.id)] && !processing
      ensures old(toDelete).Some? && deleteOk ==>
        && !deleteDialogOpen
        && customers == (if reloaded.Some? then reloaded.value else old(customers))
        && notices == old(notices) + [Deleted] + (if reloaded.Some? then [] else [LoadFailed])
      ensures old(toDelete).Some? && !deleteOk ==>
        && deleteDialogOpen == old(deleteDialogOpen) && customers == old(customers)
        && notices == old(notices) + [DeleteFailed]
      ensures form == old(form) && editing == old(editing) && toDelete == old(toDelete)
      ensures dialogOpen == old(dialogOpen)
    {
      if toDelete.None? {
        return;
      }
      processing := true;
      requests := requests + [DeleteCustomer(toDelete.value.id)];
      if deleteOk {
        notices := notices + [Deleted];
        deleteDialogOpen := false;
        LoadCustomers(reloaded);
      } else {
        notices := notices + [DeleteFailed];
      }
      processing := false;
    }
  }
}
