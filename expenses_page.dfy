/** The expenses page: the searchable expense table with the total of what is
    listed, the record/edit dialog and the delete confirmation. */
module ExpensesPage {
  import opened Common
  import opened Types
  import opened Seqs
  import opened Text
  import Search

  /** The dialog's fields; `amount` is a text input holding a number. */
  datatype ExpenseForm = ExpenseForm(category: string, amount: NumberField, description: string, expenseDate: string)

  /** A new expense starts blank and dated `today` (`yyyy-MM-dd` of the clock). */
  function BlankForm(today: string): ExpenseForm
  {
    ExpenseForm("", Empty, "", today)
  }

  /** The form pre-filled from the expense being edited. */
  function FormFor(e: Expense): (f: ExpenseForm)
    ensures f.category == e.category && f.amount == Entered(e.amount) && f.expenseDate == e.expenseDate
  {
    ExpenseForm(e.category, Entered(e.amount), OrBlank(e.description), e.expenseDate)
  }

  predicate Missing(form: ExpenseForm)
  {
    form.category == "" || form.amount.Empty?
  }

  /** `expenseData`: the recorder is the signed-in profile, an empty description
      is sent as `undefined`. */
  datatype ExpenseData = ExpenseData(
    category: string,
    amount: real,
    description: Option<string>,
    expenseDate: string,
    recordedBy: Id)

  /** The data, built only with the required fields filled in and a profile loaded. */
  function Submission(form: ExpenseForm, profile: Option<Profile>): (r: Option<ExpenseData>)
    ensures r.None? <==> Missing(form) || profile.None?
    ensures r.Some? ==> r.value.recordedBy == profile.value.id
    ensures r.Some? ==> r.value.category == form.category && r.value.amount == form.amount.value
    ensures r.Some? ==> r.value.expenseDate == form.expenseDate
    ensures r.Some? ==> (r.value.description.None? <==> form.description == "")
  {
    if Missing(form) || profile.None? then None
    else Some(ExpenseData(form.category, form.amount.value, NonEmpty(form.description), form.expenseDate, profile.value.id))
  }

  /** Saving an unchanged edit gives the expense back, except that the recorder
      becomes whoever saved it (and an empty description comes back absent). */
  lemma EditRoundTrip(e: Expense, profile: Profile)
    requires e.category != "" && e.description != Some("")
    ensures Submission(FormFor(e), Some(profile)) ==
      Some(ExpenseData(e.category, e.amount, e.description, e.expenseDate, profile.id))
  {
    BlankRoundTrip(e.description);
  }

  datatype Request = CreateExpense(data: ExpenseData) | UpdateExpense(id: Id, data: ExpenseData) | DeleteExpense(id: Id)

  /** The calls `handleSubmit` makes: none with a required field missing or no
      profile; an update of the edited expense; otherwise a create. */
  function SubmitRequests(form: ExpenseForm, profile: Option<Profile>, editing: Option<Expense>): (r: seq<Request>)
    ensures r == [] <==> Missing(form) || profile.None?
    ensures |r| <= 1
    ensures r != [] && editing.Some? ==> r[0] == UpdateExpense(editing.value.id, Submission(form, profile).value)
    ensures r != [] && editing.None? ==> r[0] == CreateExpense(Submission(form, profile).value)
  {
    match Submission(form, profile)
    case None => []
    case Some(data) => if editing.Some? then [UpdateExpense(editing.value.id, data)] else [CreateExpense(data)]
  }

  /** The fields the expense search looks at: the category, then the description. */
  function ExpenseFields(e: Expense): seq<Option<string>>
  {
    [Some(e.category), e.description]
  }

  function FilteredExpenses(expenses: seq<Expense>, term: string, lower: string -> string): seq<Expense>
  {
    Search.Search(expenses, ExpenseFields, term, lower)
  }

  /** An expense is listed exactly when its category or description contains the
      term in lower case; an empty term lists every expense. */
  lemma FilteredExpensesShows(expenses: seq<Expense>, term: string, lower: string -> string, e: Expense)
    ensures e in FilteredExpenses(expenses, term, lower) <==>
      (e in expenses
       && (Contains(lower(e.category), lower(term))
           || (e.description.Some? && Contains(lower(e.description.value), lower(term)))))
    ensures lower(term) == "" ==> FilteredExpenses(expenses, term, lower) == expenses
  {
    Search.SearchShows(expenses, ExpenseFields, term, lower, e);
    Search.AnyFieldTwo(Some(e.category), e.description, term, lower);
  }

  function Amount(e: Expense): real
  {
    e.amount
  }

  /** `totalExpenses`: the sum of the amounts of the listed expenses only. */
  function TotalExpenses(expenses: seq<Expense>, term: string, lower: string -> string): real
  {
    SumReal(FilteredExpenses(expenses, term, lower), Amount)
  }

  function Misses(term: string, lower: string -> string): Expense -> bool
  {
    (e: Expense) => !Search.Hits(ExpenseFields, term, lower)(e)
  }

  /** The total leaves out exactly the expenses the search hides: together they
      make up the sum of all loaded expenses, which the total equals when the
      term is empty. */
  lemma TotalOfListed(expenses: seq<Expense>, term: string, lower: string -> string)
    ensures SumReal(expenses, Amount) ==
      TotalExpenses(expenses, term, lower) + SumReal(Keep(expenses, Misses(term, lower)), Amount)
    ensures lower(term) == "" ==> TotalExpenses(expenses, term, lower) == SumReal(expenses, Amount)
  {
    SumKeepSplit(expenses, Amount, Search.Hits(ExpenseFields, term, lower), Misses(term, lower));
    if lower(term) == "" {
      Search.SearchShows(expenses, ExpenseFields, term, lower, Expense("", "", 0.0, None, None, ""));
    }
  }

  datatype Notice = LoadFailed | MissingFields | Saved | SaveFailed | Deleted | DeleteFailed

  class ExpensesPage {
    var expenses: seq<Expense>
    var dialogOpen: bool
    var deleteDialogOpen: bool
    var editing: Option<Expense>
    var toDelete: Option<Expense>
    var form: ExpenseForm
    var processing: bool
    var requests: seq<Request>
    var notices: seq<Notice>

    constructor(today: string)
      ensures expenses == [] && !dialogOpen && !deleteDialogOpen && editing == None && toDelete == None
      ensures form == BlankForm(today) && !processing && requests == [] && notices == []
    {
      expenses := [];
      dialogOpen := false;
      deleteDialogOpen := false;
      editing := None;
      toDelete := None;
      form := BlankForm(today);
      processing := false;
      requests := [];
      notices := [];
    }

    /** `loadExpenses`: `data` is the list read back, `None` when the read throws. */
    method LoadExpenses(data: Option<seq<Expense>>)
      modifies this
      ensures data.Some? ==> expenses == data.value && notices == old(notices)
      ensures data.None? ==> expenses == old(expenses) && notices == old(notices) + [LoadFailed]
      ensures dialogOpen == old(dialogOpen) && deleteDialogOpen == old(deleteDialogOpen)
      ensures editing == old(editing) && toDelete == old(toDelete) && form == old(form)
      ensures processing == old(processing) && requests == old(requests)
    {
      if data.Some? {
        expenses := data.value;
      } else {
        notices := notices + [LoadFailed];
      }
    }

    /** `handleOpenDialog`. */
    method OpenDialog(expense: Option<Expense>, today: string)
      modifies this
      ensures editing == expense && dialogOpen
      ensures form == (if expense.Some? then FormFor(expense.value) else BlankForm(today))
      ensures expenses == old(expenses) && deleteDialogOpen == old(deleteDialogOpen) && toDelete == old(toDelete)
      ensures processing == old(processing) && requests == old(requests) && notices == old(notices)
    {
      editing := expense;
      form := if expense.Some? then FormFor(expense.value) else BlankForm(today);
      dialogOpen := true;
    }

    /** `handleSubmit`: a missing field shows an error; without a profile nothing
        at all happens; `saveOk` says whether the create or update call succeeds. */
    method HandleSubmit(profile: Option<Profile>, saveOk: bool, reloaded: Option<seq<Expense>>)
      modifies this
      ensures requests == old(requests) + SubmitRequests(old(form), profile, old(editing))
      ensures Missing(old(form)) ==>
        && notices == old(notices) + [MissingFields]
        && dialogOpen == old(dialogOpen) && expenses == old(expenses) && processing == old(processing)
      ensures !Missing(old(form)) && profile.None? ==>
        && notices == old(notices)
        && dialogOpen == old(dialogOpen) && expenses == old(expenses) && processing == old(processing)
      ensures !Missing(old(form)) && profile.Some? && saveOk ==>
        && !dialogOpen
        && expenses == (if reloaded.Some? then reloaded.value else old(expenses))
        && notices == old(notices) + [Saved] + (if reloaded.Some? then [] else [LoadFailed])
        && !processing
      ensures !Missing(old(form)) && profile.Some? && !saveOk ==>
        && dialogOpen == old(dialogOpen) && expenses == old(expenses)
        && notices == old(notices) + [SaveFailed] && !processing
      ensures form == old(form) && editing == old(editing) && toDelete == old(toDelete)
      ensures deleteDialogOpen == old(deleteDialogOpen)
    {
      if Missing(form) {
        notices := notices + [MissingFields];
        return;
      }
      if profile.None? {
        return;
      }
      processing := true;
      var data := Submission(form, profile).value;
      if editing.Some? {
        requests := requests + [UpdateExpense(editing.value.id, data)];
      } else {
        requests := requests + [CreateExpense(data)];
      }
      if saveOk {
        notices := notices + [Saved];
        dialogOpen := false;
        LoadExpenses(reloaded);
      } else {
        notices := notices + [SaveFailed];
      }
      processing := false;
    }

    /** The table's delete button. */
    method AskDelete(e: Expense)
      modifies this
      ensures toDelete == Some(e) && deleteDialogOpen
      ensures expenses == old(expenses) && dialogOpen == old(dialogOpen) && editing == old(editing)
      ensures form == old(form) && processing == old(processing)
      ensures requests == old(requests) && notices == old(notices)
    {
      toDelete := Some(e);
      deleteDialogOpen := true;
    }

    /** `handleDelete`: nothing without an expense to delete. */
    method HandleDelete(deleteOk: bool, reloaded: Option<seq<Expense>>)
      modifies this
      ensures old(toDelete).None? ==>
        requests == old(requests) && notices == old(notices) && expenses == old(expenses)
        && deleteDialogOpen == old(deleteDialogOpen) && processing == old(processing)
      ensures old(toDelete).Some? ==> requests == old(requests) + [DeleteExpense(old(toDelete).value.id)] && !processing
      ensures old(toDelete).Some? && deleteOk ==>
        && !deleteDialogOpen
        && expenses == (if reloaded.Some? then reloaded.value else old(expenses))
        && notices == old(notices) + [Deleted] + (if reloaded.Some? then [] else [LoadFailed])
      ensures old(toDelete).Some? && !deleteOk ==>
        && deleteDialogOpen == old(deleteDialogOpen) && expenses == old(expenses)
        && notices == old(notices) + [DeleteFailed]
      ensures form == old(form) && editing == old(editing) && toDelete == old(toDelete)
      ensures dialogOpen == old(dialogOpen)
    {
      if toDelete.None? {
        return;
      }
      processing := true;
      requests := requests + [DeleteExpense(toDelete.value.id)];
      if deleteOk {
        notices := notices + [Deleted];
        deleteDialogOpen := false;
        LoadExpenses(reloaded);
      } else {
        notices := notices + [DeleteFailed];
      }
      processing := false;
    }
  }
}
