/** AnalysisPage: the month's totals, the per-category breakdown and its
    percentages, the six-month spending trend and the budget status. */
module Analysis {
  import opened Common
  import opened Text
  import opened Records

  /** `date.slice(0, 7)`: the "YYYY-MM" part of an ISO date. */
  function MonthKey(date: string): (r: string)
    ensures |r| == Min(7, |date|) && r == date[..|r|]
  {
    Slice(date, 0, 7)
  }

  function IncomeIn(month: string): Income -> bool {
    (i: Income) => MonthKey(i.date) == month
  }

  function ExpenseIn(month: string): Expense -> bool {
    (e: Expense) => MonthKey(e.date) == month
  }

  // ---------------------------------------------------------------------------
  // Month filters and totals

  /** `monthlyIncome`: the incomes dated in the selected month. */
  function MonthlyIncome(incomes: seq<Income>, month: string): (r: seq<Income>)
    ensures forall i :: i in r <==> i in incomes && MonthKey(i.date) == month
  {
    Filter(incomes, IncomeIn(month))
  }

  /** `monthlyExpenses`: the expenses dated in the selected month. */
  function MonthlyExpenses(expenses: seq<Expense>, month: string): (r: seq<Expense>)
    ensures forall e :: e in r <==> e in expenses && MonthKey(e.date) == month
  {
    Filter(expenses, ExpenseIn(month))
  }

  /** `totalIncome`: the sum of the month's income amounts, 0 for a month without any. */
  function TotalIncome(incomes: seq<Income>, month: string): (r: int)
    ensures (forall i :: i in incomes ==> MonthKey(i.date) != month) ==> r == 0
  {
    Sum(MonthlyIncome(incomes, month), IncomeAmount)
  }

  /** `totalSpent`: the sum of the month's expense amounts, 0 for a month without any. */
  function TotalSpent(expenses: seq<Expense>, month: string): (r: int)
    ensures (forall e :: e in expenses ==> MonthKey(e.date) != month) ==> r == 0
  {
    Sum(MonthlyExpenses(expenses, month), ExpenseAmount)
  }

  /** The income filter keeps the original order (it splits over concatenation),
      and the month's total is additive over the list. */
  lemma IncomeSplit(a: seq<Income>, b: seq<Income>, month: string)
    ensures MonthlyIncome(a + b, month) == MonthlyIncome(a, month) + MonthlyIncome(b, month)
    ensures TotalIncome(a + b, month) == TotalIncome(a, month) + TotalIncome(b, month)
  {
    FilterAppend(a, b, IncomeIn(month));
    SumAppend(MonthlyIncome(a, month), MonthlyIncome(b, month), IncomeAmount);
  }

  /** The same for expenses. */
  lemma ExpenseSplit(a: seq<Expense>, b: seq<Expense>, month: string)
    ensures MonthlyExpenses(a + b, month) == MonthlyExpenses(a, month) + MonthlyExpenses(b, month)
    ensures TotalSpent(a + b, month) == TotalSpent(a, month) + TotalSpent(b, month)
  {
    FilterAppend(a, b, ExpenseIn(month));
    SumAppend(MonthlyExpenses(a, month), MonthlyExpenses(b, month), ExpenseAmount);
  }

  /** Appending one expense adds its amount to its own month's total only. */
  lemma TotalSpentSnoc(expenses: seq<Expense>, e: Expense, month: string)
    ensures TotalSpent(expenses + [e], month)
            == TotalSpent(expenses, month) + (if MonthKey(e.date) == month then e.amount else 0)
  {
    var keep := ExpenseIn(month);
    FilterAppend(expenses, [e], keep);
    assert [e][1..] == [];
    assert Filter([e], keep) == if keep(e) then [e] else [];
    SumAppend(Filter(expenses, keep), Filter([e], keep), ExpenseAmount);
  }

  // ---------------------------------------------------------------------------
  // categoryData

  datatype CategorySlice = CategorySlice(name: string, value: int)

  function SliceValue(s: CategorySlice): int { s.value }

  /** The label an expense is counted under: its category's name, or "Other". */
  function FiledName(categories: seq<Category>, e: Expense): string {
    CategoryName(categories, e.category, "Other")
  }

  function FiledNames(expenses: seq<Expense>, categories: seq<Category>): (r: seq<string>)
    ensures |r| == |expenses| && forall k :: 0 <= k < |r| ==> r[k] == FiledName(categories, expenses[k])
  {
    seq(|expenses|, k requires 0 <= k < |expenses| => FiledName(categories, expenses[k]))
  }

  function FiledUnder(categories: seq<Category>, name: string): Expense -> bool {
    (e: Expense) => FiledName(categories, e) == name
  }

  /** What the breakdown should show for one label: the amounts filed under it. */
  function NameTotal(expenses: seq<Expense>, categories: seq<Category>, name: string): int {
    Sum(Filter(expenses, FiledUnder(categories, name)), ExpenseAmount)
  }

  lemma NameTotalSnoc(expenses: seq<Expense>, e: Expense, categories: seq<Category>, name: string)
    ensures NameTotal(expenses + [e], categories, name)
            == NameTotal(expenses, categories, name) + (if FiledName(categories, e) == name then e.amount else 0)
  {
    var keep := FiledUnder(categories, name);
    FilterAppend(expenses, [e], keep);
    assert [e][1..] == [];
    SumAppend(Filter(expenses, keep), Filter([e], keep), ExpenseAmount);
  }

  /** An expense whose category id matches no category is counted under "Other". */
  lemma UnknownCategoryIsOther(categories: seq<Category>, e: Expense)
    requires forall c :: c in categories ==> c.id != e.category
    ensures FiledName(categories, e) == "Other"
  {
  }

  /** The object's values added up in key order. */
  function KeyedSum(keys: seq<string>, totals: map<string, int>): int
    requires forall k :: k in keys ==> k in totals
  {
    if keys == [] then 0
    else KeyedSum(keys[..|keys| - 1], totals) + totals[keys[|keys| - 1]]
  }

  lemma {:induction false} KeyedSumOther(keys: seq<string>, totals: map<string, int>, k: string, v: int)
    requires forall x :: x in keys ==> x in totals
    requires k !in keys
    ensures KeyedSum(keys, totals[k := v]) == KeyedSum(keys, totals)
  {
    if keys != [] {
      KeyedSumOther(keys[..|keys| - 1], totals, k, v);
    }
  }

  lemma {:induction false} KeyedSumBump(keys: seq<string>, totals: map<string, int>, k: string, a: int)
    requires forall x :: x in keys ==> x in totals
    requires k in keys && NoDuplicates(keys)
    ensures KeyedSum(keys, totals[k := totals[k] + a]) == KeyedSum(keys, totals) + a
  {
    var init := keys[..|keys| - 1];
    var last := keys[|keys| - 1];
    NoDuplicatesInit(keys);
    if last == k {
      KeyedSumOther(init, totals, k, totals[k] + a);
    } else {
      assert k in init by {
        assert keys == init + [last];
      }
      KeyedSumBump(init, totals, k, a);
    }
  }

  /** Adding to one key of the object adds the same to the sum of its values. */
  lemma KeyedSumStep(keys: seq<string>, totals: map<string, int>, k: string, a: int)
    requires NoDuplicates(keys) && forall x :: x in totals <==> x in keys
    ensures KeyedSum(AddKey(keys, k), Bump(totals, k, a)) == KeyedSum(keys, totals) + a
  {
    var bumped := Bump(totals, k, a);
    if k in keys {
      assert bumped == totals[k := totals[k] + a];
      KeyedSumBump(keys, totals, k, a);
    } else {
      assert bumped == totals[k := a];
      KeyedSumOther(keys, totals, k, a);
      var keys' := keys + [k];
      assert keys'[..|keys'| - 1] == keys;
    }
  }

  /** `Object.keys(map).map(k => ({ name: k, value: map[k] }))`. */
  function Slices(keys: seq<string>, totals: map<string, int>): (r: seq<CategorySlice>)
    requires forall k :: k in keys ==> k in totals
    ensures |r| == |keys| && forall j :: 0 <= j < |r| ==> r[j] == CategorySlice(keys[j], totals[keys[j]])
  {
    seq(|keys|, j requires 0 <= j < |keys| => CategorySlice(keys[j], totals[keys[j]]))
  }

  lemma {:induction false} SlicesSum(keys: seq<string>, totals: map<string, int>)
    requires forall k :: k in keys ==> k in totals
    ensures Sum(Slices(keys, totals), SliceValue) == KeyedSum(keys, totals)
  {
    if keys != [] {
      var init := keys[..|keys| - 1];
      SlicesSum(init, totals);
      assert Slices(keys, totals) == Slices(init, totals) + [CategorySlice(keys[|keys| - 1], totals[keys[|keys| - 1]])];
      SumAppend(Slices(init, totals), [CategorySlice(keys[|keys| - 1], totals[keys[|keys| - 1]])], SliceValue);
    }
  }

  function SliceNames(data: seq<CategorySlice>): (r: seq<string>)
    ensures |r| == |data| && forall k :: 0 <= k < |r| ==> r[k] == data[k].name
  {
    seq(|data|, k requires 0 <= k < |data| => data[k].name)
  }

  /** What the object holds after the `forEach` has visited `seen`. */
  ghost predicate Tally(seen: seq<Expense>, categories: seq<Category>, keys: seq<string>, totals: map<string, int>) {
    && keys == Dedup(FiledNames(seen, categories))
    && (forall k :: k in totals <==> k in keys)
    && (forall k :: k in totals ==> totals[k] == NameTotal(seen, categories, k))
    && KeyedSum(keys, totals) == Sum(seen, ExpenseAmount)
  }

  lemma TallyStep(seen: seq<Expense>, e: Expense, categories: seq<Category>, keys: seq<string>, totals: map<string, int>)
    requires Tally(seen, categories, keys, totals)
    ensures var name := FiledName(categories, e);
            Tally(seen + [e], categories, AddKey(keys, name), Bump(totals, name, e.amount))
  {
    var name := FiledName(categories, e);
    var keys', totals' := AddKey(keys, name), Bump(totals, name, e.amount);
    assert keys' == Dedup(FiledNames(seen + [e], categories)) by {
      TallyKeys(seen, e, categories);
    }
    assert forall k :: k in totals' <==> k in keys';
    assert forall k :: k in totals' ==> totals'[k] == NameTotal(seen + [e], categories, k) by {
      TallyTotals(seen, e, categories, keys, totals);
    }
    assert KeyedSum(keys', totals') == Sum(seen + [e], ExpenseAmount) by {
      SumSnoc(seen, e, ExpenseAmount);
      KeyedSumStep(keys, totals, name, e.amount);
    }
  }

  lemma TallyKeys(seen: seq<Expense>, e: Expense, categories: seq<Category>)
    ensures var name := FiledName(categories, e);
            AddKey(Dedup(FiledNames(seen, categories)), name) == Dedup(FiledNames(seen + [e], categories))
  {
    var name := FiledName(categories, e);
    assert FiledNames(seen + [e], categories) == FiledNames(seen, categories) + [name];
    DedupSnoc(FiledNames(seen, categories), name);
  }

  lemma TallyTotals(seen: seq<Expense>, e: Expense, categories: seq<Category>, keys: seq<string>, totals: map<string, int>)
    requires keys == Dedup(FiledNames(seen, categories))
    requires forall k :: k in totals <==> k in keys
    requires forall k :: k in totals ==> totals[k] == NameTotal(seen, categories, k)
    ensures var name := FiledName(categories, e);
            forall k :: k in Bump(totals, name, e.amount) ==> Bump(totals, name, e.amount)[k] == NameTotal(seen + [e], categories, k)
  {
    var name := FiledName(categories, e);
    var totals' := Bump(totals, name, e.amount);
    forall k | k in totals' ensures totals'[k] == NameTotal(seen + [e], categories, k) {
      NameTotalSnoc(seen, e, categories, k);
      if k == name && name !in totals {
        NameTotalAbsent(seen, categories, name);
      }
    }
  }

  /** A label that no expense is filed under totals 0. */
  lemma {:induction false} NameTotalAbsent(seen: seq<Expense>, categories: seq<Category>, name: string)
    requires name !in FiledNames(seen, categories)
    ensures NameTotal(seen, categories, name) == 0
  {
    if seen != [] {
      assert FiledNames(seen[1..], categories) == FiledNames(seen, categories)[1..];
      assert FiledNames(seen, categories)[0] == FiledName(categories, seen[0]);
      NameTotalAbsent(seen[1..], categories, name);
      var keep := FiledUnder(categories, name);
      assert !keep(seen[0]);
      assert Filter(seen, keep) == Filter(seen[1..], keep);
    }
  }

  /** `categoryData`: one entry per distinct label among the month's expenses, in
      order of first appearance, each holding that label's total; together the
      entries add up to the month's spending. */
  method CategoryData(monthly: seq<Expense>, categories: seq<Category>) returns (data: seq<CategorySlice>)
    ensures SliceNames(data) == Dedup(FiledNames(monthly, categories))
    ensures forall k :: 0 <= k < |data| ==> data[k].value == NameTotal(monthly, categories, data[k].name)
    ensures Sum(data, SliceValue) == Sum(monthly, ExpenseAmount)
  {
    var totals: map<string, int> := map[];
    var keys: seq<string> := [];
    for i := 0 to |monthly|
      invariant Tally(monthly[..i], categories, keys, totals)
    {
      var name := CategoryName(categories, monthly[i].category, "Other");
      TallyStep(monthly[..i], monthly[i], categories, keys, totals);
      PrefixSnoc(monthly, i);
      totals := Bump(totals, name, monthly[i].amount);
      keys := AddKey(keys, name);
    }
    assert monthly[..|monthly|] == monthly;
    data := Slices(keys, totals);
    TallySlices(monthly, categories, keys, totals);
  }

  /** Once every expense is seen, the object's entries are the breakdown. */
  lemma TallySlices(monthly: seq<Expense>, categories: seq<Category>, keys: seq<string>, totals: map<string, int>)
    requires Tally(monthly, categories, keys, totals)
    ensures SliceNames(Slices(keys, totals)) == Dedup(FiledNames(monthly, categories))
    ensures forall k :: 0 <= k < |Slices(keys, totals)| ==>
              Slices(keys, totals)[k].value == NameTotal(monthly, categories, Slices(keys, totals)[k].name)
    ensures Sum(Slices(keys, totals), SliceValue) == Sum(monthly, ExpenseAmount)
  {
    SlicesSum(keys, totals);
    assert SliceNames(Slices(keys, totals)) == keys;
  }

  // ---------------------------------------------------------------------------
  // distributionData

  datatype Share = Share(name: string, value: int, percent: real)

  /** `totalSpent > 0 ? (value / totalSpent) * 100 : 0`, exactly (no `toFixed(1)` rounding). */
  function Percent(value: int, total: int): (r: real)
    ensures total > 0 ==> r * (total as real) == (value as real) * 100.0
    ensures total > 0 && 0 <= value <= total ==> 0.0 <= r <= 100.0
    ensures total <= 0 ==> r == 0.0
  {
    if total > 0 then (value as real) * 100.0 / (total as real) else 0.0
  }

  /** `distributionData`: the breakdown with each entry's share of the month's spending. */
  function DistributionData(data: seq<CategorySlice>, totalSpent: int): (r: seq<Share>)
    ensures |r| == |data|
    ensures forall k :: 0 <= k < |r| ==> r[k].name == data[k].name && r[k].value == data[k].value
    ensures forall k :: 0 <= k < |r| ==>
              if totalSpent > 0 then r[k].percent * (totalSpent as real) == (data[k].value as real) * 100.0
              else r[k].percent == 0.0
  {
    seq(|data|, k requires 0 <= k < |data| => Share(data[k].name, data[k].value, Percent(data[k].value, totalSpent)))
  }

  function PercentSum(shares: seq<Share>): real {
    if shares == [] then 0.0 else shares[0].percent + PercentSum(shares[1..])
  }

  lemma {:induction false} PercentSumScaled(data: seq<CategorySlice>, total: int)
    requires total > 0
    ensures PercentSum(DistributionData(data, total)) * (total as real) == (Sum(data, SliceValue) as real) * 100.0
  {
    var r := DistributionData(data, total);
    if data != [] {
      PercentSumScaled(data[1..], total);
      assert r[1..] == DistributionData(data[1..], total);
      var p := r[0].percent;
      var rest := PercentSum(r[1..]);
      var t := total as real;
      assert (p + rest) * t == p * t + rest * t;
    }
  }

  /** The percentages add up to 100 when the month has spending, and to 0 otherwise. */
  lemma PercentsAddUp(data: seq<CategorySlice>, totalSpent: int)
    requires Sum(data, SliceValue) == totalSpent
    ensures totalSpent > 0 ==> PercentSum(DistributionData(data, totalSpent)) == 100.0
    ensures totalSpent <= 0 ==> PercentSum(DistributionData(data, totalSpent)) == 0.0
  {
    var r := DistributionData(data, totalSpent);
    if totalSpent > 0 {
      PercentSumScaled(data, totalSpent);
      var t := totalSpent as real;
      assert PercentSum(r) * t == t * 100.0;
      CancelTotal(PercentSum(r), t);
    } else {
      PercentSumZero(r);
    }
  }

  /** The cancellation step: `p * t == t * 100` with `t > 0` means `p == 100`. */
  lemma CancelTotal(p: real, t: real)
    requires t > 0.0 && p * t == t * 100.0
    ensures p == 100.0
  {
    assert (p - 100.0) * t == 0.0;
  }

  lemma {:induction false} PercentSumZero(shares: seq<Share>)
    requires forall k :: 0 <= k < |shares| ==> shares[k].percent == 0.0
    ensures PercentSum(shares) == 0.0
  {
    if shares != [] {
      PercentSumZero(shares[1..]);
    }
  }

  // ---------------------------------------------------------------------------
  // trendData

  datatype TrendPoint = TrendPoint(month: string, amount: int)

  function MonthKeys(expenses: seq<Expense>): (r: seq<string>)
    ensures |r| == |expenses| && forall k :: 0 <= k < |r| ==> r[k] == MonthKey(expenses[k].date)
  {
    seq(|expenses|, k requires 0 <= k < |expenses| => MonthKey(expenses[k].date))
  }

  function TrendMonths(trend: seq<TrendPoint>): (r: seq<string>)
    ensures |r| == |trend| && forall k :: 0 <= k < |r| ==> r[k] == trend[k].month
  {
    seq(|trend|, k requires 0 <= k < |trend| => trend[k].month)
  }

  /** What the month object holds after the `forEach` has visited `seen`. */
  ghost predicate MonthTally(seen: seq<Expense>, keys: seq<string>, totals: map<string, int>) {
    && keys == Dedup(MonthKeys(seen))
    && (forall k :: k in totals <==> k in keys)
    && (forall k :: k in totals ==> totals[k] == TotalSpent(seen, k))
  }

  /** A month no expense is dated in totals 0. */
  lemma MonthAbsent(seen: seq<Expense>, m: string)
    requires m !in MonthKeys(seen)
    ensures TotalSpent(seen, m) == 0
  {
    forall x | x in seen ensures MonthKey(x.date) != m {
      var j :| 0 <= j < |seen| && seen[j] == x;
      assert MonthKeys(seen)[j] == MonthKey(x.date);
    }
  }

  lemma MonthTallyStep(seen: seq<Expense>, e: Expense, keys: seq<string>, totals: map<string, int>)
    requires MonthTally(seen, keys, totals)
    ensures var m := MonthKey(e.date);
            MonthTally(seen + [e], AddKey(keys, m), Bump(totals, m, e.amount))
  {
    MonthKeysStep(seen, e);
    MonthTotalsStep(seen, e, keys, totals);
  }

  lemma MonthKeysStep(seen: seq<Expense>, e: Expense)
    ensures AddKey(Dedup(MonthKeys(seen)), MonthKey(e.date)) == Dedup(MonthKeys(seen + [e]))
  {
    assert MonthKeys(seen + [e]) == MonthKeys(seen) + [MonthKey(e.date)];
    DedupSnoc(MonthKeys(seen), MonthKey(e.date));
  }

  lemma MonthTotalsStep(seen: seq<Expense>, e: Expense, keys: seq<string>, totals: map<string, int>)
    requires keys == Dedup(MonthKeys(seen))
    requires forall k :: k in totals <==> k in keys
    requires forall k :: k in totals ==> totals[k] == TotalSpent(seen, k)
    ensures var m := MonthKey(e.date);
            forall k :: k in Bump(totals, m, e.amount) ==> Bump(totals, m, e.amount)[k] == TotalSpent(seen + [e], k)
  {
    var m := MonthKey(e.date);
    var totals' := Bump(totals, m, e.amount);
    forall k | k in totals' ensures totals'[k] == TotalSpent(seen + [e], k) {
      TotalSpentSnoc(seen, e, k);
      if k == m && m !in totals {
        MonthAbsent(seen, m);
      }
    }
  }

  /** `trendData`: the (at most) six latest months that have any expense, in
      ascending order, each with the total of all expenses dated in it. */
  method TrendData(expenses: seq<Expense>) returns (trend: seq<TrendPoint>)
    ensures |trend| == Min(6, |Dedup(MonthKeys(expenses))|)
    ensures Ascending(TrendMonths(trend))
    ensures forall p :: p in trend ==> p.month in MonthKeys(expenses) && p.amount == TotalSpent(expenses, p.month)
    ensures forall m :: m in MonthKeys(expenses) && m !in TrendMonths(trend) ==>
              forall p :: p in trend ==> Below(m, p.month)
  {
    var totals: map<string, int> := map[];
    var keys: seq<string> := [];
    for i := 0 to |expenses|
      invariant MonthTally(expenses[..i], keys, totals)
    {
      var m := MonthKey(expenses[i].date);
      MonthTallyStep(expenses[..i], expenses[i], keys, totals);
      PrefixSnoc(expenses, i);
      totals := Bump(totals, m, expenses[i].amount);
      keys := AddKey(keys, m);
    }
    assert expenses[..|expenses|] == expenses;
    trend := Recent(keys, totals);
  }

  /** `Object.keys(monthMap).sort().slice(-6).map(m => ({ month: m, amount: monthMap[m] }))`
      for distinct keys: the six keys that sort last, ascending, with their values. */
  function Recent(keys: seq<string>, totals: map<string, int>): (trend: seq<TrendPoint>)
    requires NoDuplicates(keys) && forall k :: k in keys ==> k in totals
    ensures |trend| == Min(6, |keys|)
    ensures Ascending(TrendMonths(trend))
    ensures forall p :: p in trend ==> p.month in keys && p.amount == totals[p.month]
    ensures forall m :: m in keys && m !in TrendMonths(trend) ==> forall p :: p in trend ==> Below(m, p.month)
  {
    var sorted := Sort(keys);
    var recent := TakeLast(sorted, 6);
    LatestMonths(keys, sorted, recent);
    var trend := seq(|recent|, j requires 0 <= j < |recent| => TrendPoint(recent[j], totals[recent[j]]));
    assert TrendMonths(trend) == recent;
    trend
  }

  lemma SuffixAscending(s: seq<string>, start: nat)
    requires Ascending(s) && start <= |s|
    ensures Ascending(s[start..])
  {
    forall i, j | 0 <= i < j < |s[start..]| ensures Below(s[start..][i], s[start..][j]) {
      assert s[start..][i] == s[start + i] && s[start..][j] == s[start + j];
    }
  }

  lemma BeforeSuffix(s: seq<string>, start: nat, m: string)
    requires Ascending(s) && start <= |s| && m in s[..start]
    ensures forall x :: x in s[start..] ==> Below(m, x)
  {
    var k :| 0 <= k < start && s[..start][k] == m;
    forall x | x in s[start..] ensures Below(m, x) {
      var j :| 0 <= j < |s[start..]| && s[start..][j] == x;
      assert s[start + j] == x;
    }
  }

  /** The last six of the sorted distinct keys are ascending, and every key
      left out sorts before all of them. */
  lemma LatestMonths(keys: seq<string>, sorted: seq<string>, recent: seq<string>)
    requires NoDuplicates(keys)
    requires sorted == Sort(keys) && recent == TakeLast(sorted, 6)
    ensures |recent| == Min(6, |keys|)
    ensures Ascending(recent)
    ensures forall m :: m in recent <==> m in sorted[|sorted| - |recent|..]
    ensures forall m :: m in recent ==> m in keys
    ensures forall m :: m in keys && m !in recent ==> forall x :: x in recent ==> Below(m, x)
  {
    assert |sorted| == |multiset(sorted)| == |multiset(keys)| == |keys|;
    var start := |sorted| - |recent|;
    assert recent == sorted[start..] by {
      assert sorted == sorted[..start] + recent;
    }
    SuffixAscending(sorted, start);
    forall m | m in recent ensures m in keys {
      assert m in multiset(sorted);
    }
    forall m | m in keys && m !in recent ensures forall x :: x in recent ==> Below(m, x) {
      assert m in multiset(sorted);
      assert m in sorted[..start] by {
        assert sorted == sorted[..start] + recent;
      }
      BeforeSuffix(sorted, start, m);
    }
  }

  // ---------------------------------------------------------------------------
  // Status card and overspend alert

  datatype BudgetStatus = NoIncome | OverBudget | WithinBudget

  /** The status card's text. */
  function Status(totalIncome: int, totalSpent: int): (s: BudgetStatus)
    ensures s == NoIncome <==> totalIncome == 0
    ensures s == OverBudget <==> totalIncome != 0 && totalSpent > totalIncome
    ensures s == WithinBudget <==> totalIncome != 0 && totalSpent <= totalIncome
  {
    if totalIncome == 0 then NoIncome
    else if totalSpent > totalIncome then OverBudget
    else WithinBudget
  }

  /** The red "spent more than your income" alert is rendered. */
  predicate ShowsOverspendAlert(totalIncome: int, totalSpent: int)
    ensures ShowsOverspendAlert(totalIncome, totalSpent) ==> Status(totalIncome, totalSpent) == OverBudget
    ensures totalIncome <= 0 ==> !ShowsOverspendAlert(totalIncome, totalSpent)
  {
    totalSpent > totalIncome && totalIncome > 0
  }

  /** With a non-negative income total the alert shows exactly when the status
      says "Over Budget". */
  lemma AlertIffOverBudget(totalIncome: int, totalSpent: int)
    requires totalIncome >= 0
    ensures ShowsOverspendAlert(totalIncome, totalSpent) <==> Status(totalIncome, totalSpent) == OverBudget
  {
  }

  /** A negative income total never shows the alert, and says "Over Budget"
      whenever the spending exceeds it (so also with nothing spent). */
  lemma NegativeIncomeHidesAlert(totalIncome: int, totalSpent: int)
    requires totalIncome < 0
    ensures !ShowsOverspendAlert(totalIncome, totalSpent)
    ensures totalSpent > totalIncome ==> Status(totalIncome, totalSpent) == OverBudget
    ensures totalSpent <= totalIncome ==> Status(totalIncome, totalSpent) == WithinBudget
  {
  }

  lemma {:induction false} SumNonNegative(incomes: seq<Income>)
    requires forall i :: i in incomes ==> i.amount >= 0
    ensures Sum(incomes, IncomeAmount) >= 0
  {
    if incomes != [] {
      SumNonNegative(incomes[1..]);
    }
  }

  /** For incomes with non-negative amounts, the page shows the alert exactly
      when it reports "Over Budget" for the selected month. */
  lemma AlertMatchesStatus(incomes: seq<Income>, expenses: seq<Expense>, month: string)
    requires forall i :: i in incomes ==> i.amount >= 0
    ensures ShowsOverspendAlert(TotalIncome(incomes, month), TotalSpent(expenses, month))
            <==> Status(TotalIncome(incomes, month), TotalSpent(expenses, month)) == OverBudget
  {
    SumNonNegative(MonthlyIncome(incomes, month));
  }
}
