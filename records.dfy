/** The documents the backend returns, as the store holds them. */
module Records {
  import opened Common

  /** `Category` of categoriesSlice.ts; `createdAt` may be missing. */
  datatype Category = Category(id: string, name: string, createdAt: Option<string>)

  /** `Income` of incomes.slice.ts. */
  datatype Income = Income(id: string, source: string, amount: int, date: string)

  /** An expense document as the pages read it: the server sends `title` and
      `notes` (a missing `notes` is the empty string here). */
  datatype Expense = Expense(id: string, title: string, amount: int, category: string, notes: string, date: string)

  datatype Role = UserRole | AdminRole

  /** `AdminUser` of adminUserSlice.ts. */
  datatype AdminUser = AdminUser(id: string, name: string, email: string, role: Role, isBlocked: bool, createdAt: string)

  /** `SavingsGoal` of savingsGoalsSlice.ts, with the image URL the page shows. */
  datatype SavingsGoal = SavingsGoal(id: string, title: string, targetAmount: int, currentAmount: int, image: string)

  function CategoryId(c: Category): string { c.id }
  function IncomeId(i: Income): string { i.id }
  function ExpenseId(e: Expense): string { e.id }
  function UserId(u: AdminUser): string { u.id }
  function IncomeAmount(i: Income): int { i.amount }
  function ExpenseAmount(e: Expense): int { e.amount }

  /** `categories.find(c => c._id === id)`: the first category with that id. */
  function FindCategory(categories: seq<Category>, id: string): (r: Option<Category>)
    ensures r.None? <==> forall c :: c in categories ==> c.id != id
    ensures r.Some? ==> exists k :: 0 <= k < |categories| && categories[k] == r.value && r.value.id == id
                                    && forall j :: 0 <= j < k ==> categories[j].id != id
  {
    if categories == [] then None
    else if categories[0].id == id then Some(categories[0])
    else
      var r := FindCategory(categories[1..], id);
      assert r.Some? ==> exists k :: 0 <= k < |categories| && categories[k] == r.value && r.value.id == id
                                     && forall j :: 0 <= j < k ==> categories[j].id != id by {
        if r.Some? {
          var k :| 0 <= k < |categories[1..]| && categories[1..][k] == r.value && r.value.id == id
                   && forall j :: 0 <= j < k ==> categories[1..][j].id != id;
          assert categories[k + 1] == r.value;
          assert forall j :: 0 < j < k + 1 ==> categories[j] == categories[1..][j - 1];
        }
      }
      r
  }

  /** `categories.find(c => c._id === id)?.name || fallback`: the name of the first
      category with that id, or the fallback when there is none or its name is empty. */
  function CategoryName(categories: seq<Category>, id: string, fallback: string): (r: string)
    ensures r != fallback ==> exists c :: c in categories && c.id == id && c.name == r
    ensures (forall c :: c in categories ==> c.id != id) ==> r == fallback
  {
    match FindCategory(categories, id)
    case Some(c) => if c.name != "" then c.name else fallback
    case None => fallback
  }

  /** The name lookup is decided by the first category carrying the id. */
  lemma FirstMatchWins(categories: seq<Category>, k: nat, id: string, fallback: string)
    requires k < |categories| && categories[k].id == id && categories[k].name != ""
    requires forall j :: 0 <= j < k ==> categories[j].id != id
    ensures CategoryName(categories, id, fallback) == categories[k].name
  {
    var r := FindCategory(categories, id);
    var k' :| 0 <= k' < |categories| && categories[k'] == r.value && r.value.id == id
              && forall j :: 0 <= j < k' ==> categories[j].id != id;
    assert k' == k;
  }
}
