/** ExpensesPage: the overall total, the add/edit form with its payloads,
    guards and resets, and the category label of each listed expense. */
module ExpensesPage {
  import opened Common
  import opened Text
  import opened Records
  import Analysis

  /** `totalExpenses`: every expense counts, whatever its month. */
  function TotalExpenses(expenses: seq<Expense>): (r: int)
    ensures (forall e :: e in expenses ==> e.amount >= 0) ==>
              r >= 0 && forall e :: e in expenses ==> e.amount <= r
  {
    SumCovers(expenses, ExpenseAmount);
    Sum(expenses, ExpenseAmount)
  }

  /** The page's total is the analysis page's total for any one month plus the
      amounts dated in other months. */
  lemma TotalCoversEveryMonth(expenses: seq<Expense>, month: string)
    ensures TotalExpenses(expenses)
            == Analysis.TotalSpent(expenses, month)
               + Sum(Filter(expenses, Not(Analysis.ExpenseIn(month))), ExpenseAmount)
  {
    SumSplit(expenses, Analysis.ExpenseIn(month), ExpenseAmount);
  }

  /** The label shown for an expense: its category's name, or "Unknown". */
  function CategoryLabel(categories: seq<Category>, e: Expense): (r: string)
    ensures (forall c :: c in categories ==> c.id != e.category) ==> r == "Unknown"
    ensures r != "Unknown" ==> exists c :: c in categories && c.id == e.category && c.name == r
  {
    CategoryName(categories, e.category, "Unknown")
  }

  // ---------------------------------------------------------------------------
  // The form

  /** The four text inputs; `amount` holds the raw input text. */
  datatype ExpenseForm = ExpenseForm(amount: string, category: string, description: string, date: string)

  const BlankForm := ExpenseForm("", "", "", "")

  datatype Field = AmountField | CategoryField | DescriptionField | DateField

  /** `setForm({ ...form, [name]: value })`. */
  function WithField(form: ExpenseForm, field: Field, value: string): (r: ExpenseForm)
    ensures field == AmountField ==> r == form.(amount := value)
    ensures field == CategoryField ==> r == form.(category := value)
    ensures field == DescriptionField ==> r == form.(description := value)
    ensures field == DateField ==> r == form.(date := value)
  {
    match field
    case AmountField => form.(amount := value)
    case CategoryField => form.(category := value)
    case DescriptionField => form.(description := value)
    case DateField => form.(date := value)
  }

  /** The body of `addExpense` and of `updateExpense`; `amount` is
      `Number(form.amount)`, None where that is NaN or not an integer. */
  datatype ExpensePayload = ExpensePayload(title: string, amount: Option<int>, category: string, notes: string, date: string)

  /** The payload built from the form; `now` is `new Date().toISOString()`. */
  function Payload(form: ExpenseForm, now: string): (p: ExpensePayload)
    ensures p.title == if form.description == "" then "No title" else form.description
    ensures p.notes == form.description && p.category == form.category
    ensures p.date == if form.date == "" then now else form.date
    ensures p.amount == ParseNumber(form.amount)
  {
    ExpensePayload(OrElse(Some(form.description), "No title"), ParseNumber(form.amount),
                   form.category, form.description, OrElse(Some(form.date), now))
  }

  /** What `handleAdd` dispatches: nothing while the amount or the category
      input is empty (a typed "0" is a non-empty string and passes). */
  function AddRequest(form: ExpenseForm, now: string): (r: Option<ExpensePayload>)
    ensures r == None <==> form.amount == "" || form.category == ""
    ensures r.Some? ==> r.value == Payload(form, now)
  {
    if form.amount == "" || form.category == "" then None else Some(Payload(form, now))
  }

  datatype ExpenseUpdate = ExpenseUpdate(id: string, data: ExpensePayload)

  /** What `handleUpdate` dispatches: nothing without an id (null or ""). */
  function UpdateRequest(editingId: Option<string>, form: ExpenseForm, now: string): (r: Option<ExpenseUpdate>)
    ensures r == None <==> editingId == None || editingId == Some("")
    ensures r.Some? ==> r.value == ExpenseUpdate(editingId.value, Payload(form, now))
  {
    if editingId == None || editingId == Some("") then None
    else Some(ExpenseUpdate(editingId.value, Payload(form, now)))
  }

  /** The form `handleEdit` fills in from an expense. */
  function EditForm(e: Expense): (r: ExpenseForm)
    ensures r.amount == Show(e.amount) && r.category == e.category
    ensures r.description == if e.notes == "" then e.title else e.notes
    ensures |r.date| == Min(10, |e.date|) && r.date == e.date[..|r.date|]
  {
    ExpenseForm(Show(e.amount), e.category, OrElse(Some(e.notes), e.title), Slice(e.date, 0, 10))
  }

  /** Opening an expense for editing and saving it unchanged sends back its
      amount and category; the notes become its notes, or its title when it had
      none; and the date becomes its first ten characters (the day), or now
      when it had no date. */
  lemma EditedUnchanged(e: Expense, now: string)
    ensures var p := Payload(EditForm(e), now);
            && p.amount == Some(e.amount)
            && p.category == e.category
            && p.notes == (if e.notes == "" then e.title else e.notes)
            && p.date == (if e.date == "" then now else e.date[..Min(10, |e.date|)])
  {
    ParseShow(e.amount);
  }

  /** An expense opened for editing can always be saved again: its amount text is never empty. */
  lemma EditedFormPassesAddGuard(e: Expense, now: string)
    requires e.category != ""
    ensures AddRequest(EditForm(e), now).Some?
  {
  }

  /** The page's form and modal state. */
  class ExpenseEditor {
    var form: ExpenseForm
    var editingId: Option<string>
    var showModal: bool

    constructor ()
      ensures form == BlankForm && editingId == None && !showModal
    {
      form := BlankForm;
      editingId := None;
      showModal := false;
    }

    /** `handleChange`: one input changes, the others keep their text. */
    method Change(field: Field, value: string)
      modifies this
      ensures form == WithField(old(form), field, value)
      ensures editingId == old(editingId) && showModal == old(showModal)
    {
      form := WithField(form, field, value);
    }

    /** `resetForm`: clears the four inputs, forgets the id, closes the modal. */
    method ResetForm()
      modifies this
      ensures form == BlankForm && editingId == None && !showModal
    {
      form := BlankForm;
      editingId := None;
      showModal := false;
    }

    /** `handleAdd`: dispatches `addExpense` and resets, or does nothing. */
    method Add(now: string) returns (request: Option<ExpensePayload>)
      modifies this
      ensures request == AddRequest(old(form), now)
      ensures request == None ==> form == old(form) && editingId == old(editingId) && showModal == old(showModal)
      ensures request.Some? ==> form == BlankForm && editingId == None && !showModal
    {
      request := AddRequest(form, now);
      if request.Some? {
        ResetForm();
      }
    }

    /** `handleEdit`: remembers the id, fills the form and opens the modal. */
    method Edit(e: Expense)
      modifies this
      ensures editingId == Some(e.id) && form == EditForm(e) && showModal
    {
      editingId := Some(e.id);
      form := EditForm(e);
      showModal := true;
    }

    /** `handleUpdate`: dispatches `updateExpense` and resets, or does nothing.
        The thunk is not defined by expensesSlice.ts; what that does to the
        handler is under "Left out" in README.md. */
    method Update(now: string) returns (request: Option<ExpenseUpdate>)
      modifies this
      ensures request == UpdateRequest(old(editingId), old(form), now)
      ensures request == None ==> form == old(form) && editingId == old(editingId) && showModal == old(showModal)
      ensures request.Some? ==> form == BlankForm && editingId == None && !showModal
    {
      request := UpdateRequest(editingId, form, now);
      if request.Some? {
        ResetForm();
      }
    }
  }
}
