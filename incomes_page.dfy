/** IncomesPage: the selected month's incomes, their total and chart points,
    and the add and edit forms with their guards and resets. */
module IncomesPage {
  import opened Common
  import opened Text
  import opened Records

  /** A month as `Date#getFullYear()` and `Date#getMonth()` (0-11) report it. */
  datatype CalendarMonth = CalendarMonth(year: int, month: int)

  /** `new Date(date)` read back as a calendar month; None for an invalid date,
      whose `getMonth()` is NaN and equals nothing. The reading itself (time
      zones, accepted formats) belongs to the JavaScript runtime. */
  type DateReader = string -> Option<CalendarMonth>

  function InSelected(readDate: DateReader, selected: CalendarMonth): Income -> bool {
    (i: Income) => readDate(i.date) == Some(selected)
  }

  /** `monthlyItems`: the incomes whose date falls in the selected month and year. */
  function MonthlyItems(items: seq<Income>, readDate: DateReader, selected: CalendarMonth): (r: seq<Income>)
    ensures forall i :: i in r <==> i in items && readDate(i.date) == Some(selected)
  {
    Filter(items, InSelected(readDate, selected))
  }

  /** The filter keeps the order of the fetched list. */
  lemma MonthlyItemsSplit(a: seq<Income>, b: seq<Income>, readDate: DateReader, selected: CalendarMonth)
    ensures MonthlyItems(a + b, readDate, selected)
            == MonthlyItems(a, readDate, selected) + MonthlyItems(b, readDate, selected)
  {
    FilterAppend(a, b, InSelected(readDate, selected));
  }

  /** `total`: the sum of the month's amounts, 0 when nothing matches. */
  function Total(items: seq<Income>, readDate: DateReader, selected: CalendarMonth): (r: int)
    ensures (forall i :: i in items ==> readDate(i.date) != Some(selected)) ==> r == 0
  {
    Sum(MonthlyItems(items, readDate, selected), IncomeAmount)
  }

  /** The total is additive over the fetched list. */
  lemma TotalSplit(a: seq<Income>, b: seq<Income>, readDate: DateReader, selected: CalendarMonth)
    ensures Total(a + b, readDate, selected) == Total(a, readDate, selected) + Total(b, readDate, selected)
  {
    MonthlyItemsSplit(a, b, readDate, selected);
    SumAppend(MonthlyItems(a, readDate, selected), MonthlyItems(b, readDate, selected), IncomeAmount);
  }

  /** One point of the line chart; the formatted date label is not modelled. */
  datatype ChartPoint = ChartPoint(index: nat, amount: int)

  function PointAmount(p: ChartPoint): int { p.amount }

  /** `chartData`: point i is the i-th monthly item's amount at index i, so the
      points carry the items' amounts between them. */
  function ChartData(monthly: seq<Income>): (r: seq<ChartPoint>)
    ensures |r| == |monthly|
    ensures forall k :: 0 <= k < |r| ==> r[k].index == k && r[k].amount == monthly[k].amount
    ensures Sum(r, PointAmount) == Sum(monthly, IncomeAmount)
  {
    var r := seq(|monthly|, k requires 0 <= k < |monthly| => ChartPoint(k, monthly[k].amount));
    SumPointwise(r, PointAmount, monthly, IncomeAmount);
    r
  }

  /** The chart's points add up to the total shown above it. */
  lemma ChartMatchesTotal(items: seq<Income>, readDate: DateReader, selected: CalendarMonth)
    ensures Sum(ChartData(MonthlyItems(items, readDate, selected)), PointAmount) == Total(items, readDate, selected)
  {
    var monthly := MonthlyItems(items, readDate, selected);
    SumPointwise(ChartData(monthly), PointAmount, monthly, IncomeAmount);
  }

  // ---------------------------------------------------------------------------
  // The amount inputs hold `number | ""`.

  datatype AmountInput = Empty | Entered(n: int)

  /** `!amount` on a `number | ""`: "" and 0 are falsy. */
  predicate Missing(a: AmountInput)
    ensures Missing(a) <==> NumberOf(a) == 0
  {
    a == Empty || a == Entered(0)
  }

  /** `Number(amount)`: `Number("")` is 0. */
  function NumberOf(a: AmountInput): (r: int)
    ensures a.Entered? ==> ReadAmount(Show(r)) == Some(a)
    ensures a.Empty? ==> ReadAmount(Show(r)) == Some(Entered(0))
  {
    match a
    case Empty => ReadAmountShow(0); 0
    case Entered(n) => ReadAmountShow(n); n
  }

  /** The amount input's onChange: `value === "" ? "" : Number(value)`.
      None when the text is not a decimal integer (NaN and fractions are not modelled). */
  function ReadAmount(text: string): (r: Option<AmountInput>)
    ensures text == "" ==> r == Some(Empty)
    ensures r.Some? && r.value.Entered? ==> ParseNumber(text) == Some(r.value.n)
  {
    if text == "" then Some(Empty)
    else match ParseNumber(text)
      case Some(n) => Some(Entered(n))
      case None => None
  }

  /** An amount typed as `toString()` prints it reads back unchanged. */
  lemma ReadAmountShow(n: int)
    ensures ReadAmount(Show(n)) == Some(Entered(n))
  {
    ParseShow(n);
  }

  /** The payload of `addIncome`. */
  datatype NewIncome = NewIncome(source: string, amount: int)

  /** The payload of `updateIncome`. */
  datatype IncomeEdit = IncomeEdit(id: string, source: string, amount: int)

  /** What `submit` dispatches, if anything. */
  function SubmitRequest(source: string, amount: AmountInput): (r: Option<NewIncome>)
    ensures r == None <==> source == "" || Missing(amount)
    ensures r.Some? ==> r.value.source == source && amount == Entered(r.value.amount) && r.value.amount != 0
  {
    if source == "" || Missing(amount) then None else Some(NewIncome(source, NumberOf(amount)))
  }

  /** What `submitEdit` dispatches, if anything: nothing without an id (null or ""). */
  function EditRequest(editId: Option<string>, editSource: string, editAmount: AmountInput): (r: Option<IncomeEdit>)
    ensures r == None <==> editId == None || editId == Some("")
    ensures r.Some? ==> r.value == IncomeEdit(editId.value, editSource, NumberOf(editAmount))
  {
    if editId == None || editId == Some("") then None
    else Some(IncomeEdit(editId.value, editSource, NumberOf(editAmount)))
  }

  /** Saving an edit form that was opened on an income and left untouched asks
      for that income's own source and amount. */
  lemma EditUnchangedRoundTrip(it: Income)
    requires it.id != ""
    ensures EditRequest(Some(it.id), it.source, Entered(it.amount)) == Some(IncomeEdit(it.id, it.source, it.amount))
  {
  }

  /** The page's form and modal state. */
  class IncomeForms {
    var source: string
    var amount: AmountInput
    var editOpen: bool
    var editId: Option<string>
    var editSource: string
    var editAmount: AmountInput

    constructor ()
      ensures source == "" && amount == Empty
      ensures !editOpen && editId == None && editSource == "" && editAmount == Empty
    {
      source := "";
      amount := Empty;
      editOpen := false;
      editId := None;
      editSource := "";
      editAmount := Empty;
    }

    /** `submit`: without a source or a non-zero amount nothing happens;
        otherwise `addIncome` is dispatched and both inputs are cleared
        (whether or not the request succeeds). */
    method Submit() returns (request: Option<NewIncome>)
      modifies this
      ensures request == SubmitRequest(old(source), old(amount))
      ensures request == None ==> source == old(source) && amount == old(amount)
      ensures request.Some? ==> source == "" && amount == Empty
      ensures editOpen == old(editOpen) && editId == old(editId)
      ensures editSource == old(editSource) && editAmount == old(editAmount)
    {
      request := SubmitRequest(source, amount);
      if request.Some? {
        ClearInputs();
      }
    }

    /** Empties the source and amount inputs and nothing else. */
    method ClearInputs()
      modifies this
      ensures source == "" && amount == Empty
      ensures editOpen == old(editOpen) && editId == old(editId)
      ensures editSource == old(editSource) && editAmount == old(editAmount)
    {
      source := "";
      amount := Empty;
    }

    /** `openEdit`: copies the income into the edit fields and opens the modal. */
    method OpenEdit(it: Income)
      modifies this
      ensures editId == Some(it.id) && editSource == it.source && editAmount == Entered(it.amount)
      ensures editOpen
      ensures source == old(source) && amount == old(amount)
    {
      editId := Some(it.id);
      editSource := it.source;
      editAmount := Entered(it.amount);
      editOpen := true;
    }

    /** `submitEdit`: without an id nothing happens; otherwise `updateIncome`
        is dispatched and the modal closes. The edit fields keep their values. */
    method SubmitEdit() returns (request: Option<IncomeEdit>)
      modifies this
      ensures request == EditRequest(old(editId), old(editSource), old(editAmount))
      ensures editOpen == (if request == None then old(editOpen) else false)
      ensures editId == old(editId) && editSource == old(editSource) && editAmount == old(editAmount)
      ensures source == old(source) && amount == old(amount)
    {
      request := EditRequest(editId, editSource, editAmount);
      if request.Some? {
        editOpen := false;
      }
    }

    /** The modal's close button. */
    method CloseEdit()
      modifies this
      ensures !editOpen
      ensures editId == old(editId) && editSource == old(editSource) && editAmount == old(editAmount)
      ensures source == old(source) && amount == old(amount)
    {
      editOpen := false;
    }
  }
}
