/** categoriesSlice.ts: the response check of `fetchCategories` and the
    reducers for fetch, add, update and delete. */
module CategoriesSlice {
  import opened Common
  import opened Records

  // ---------------------------------------------------------------------------
  // fetchCategories

  /** The `categories` field of the server's reply. */
  datatype CategoriesField = Missing | NotAList | List(items: seq<Category>)

  /** How the request ended: a reply, or an error whose
      `err.response?.data?.message` may be missing. */
  datatype FetchReply = Replied(field: CategoriesField) | Failed(message: Option<string>)

  /** A settled thunk: its fulfilled value, or the value it was rejected with. */
  datatype Settled<T> = Fulfilled(value: T) | Rejected(payload: Option<string>)

  /** The body of `fetchCategories`: only a reply whose `categories` is a list
      fulfils; a missing or non-list field, or a failed request, rejects with a
      message. */
  function FetchOutcome(reply: FetchReply): (r: Settled<seq<Category>>)
    ensures r.Fulfilled? <==> reply.Replied? && reply.field.List?
    ensures r.Fulfilled? ==> r.value == reply.field.items
    ensures reply.Replied? && !reply.field.List? ==> r == Rejected(Some("Invalid data format from server"))
    ensures reply.Failed? ==> r == Rejected(Some(OrElse(reply.message, "Fetch failed")))
  {
    match reply
    case Replied(List(items)) => Fulfilled(items)
    case Replied(_) => Rejected(Some("Invalid data format from server"))
    case Failed(message) => Rejected(Some(OrElse(message, "Fetch failed")))
  }

  /** The thunk always rejects with a non-empty message, so the reducer's
      "Failed to fetch categories" fallback never shows for it. */
  lemma FetchRejectionHasMessage(reply: FetchReply)
    ensures FetchOutcome(reply).Rejected? ==>
              FetchOutcome(reply).payload.Some? && FetchOutcome(reply).payload.value != ""
  {
  }

  // ---------------------------------------------------------------------------
  // Update by first matching id

  /** `categories.findIndex(c => c._id === id)`. */
  function FindIndex(categories: seq<Category>, id: string): (k: int)
    ensures -1 <= k < |categories|
    ensures k == -1 <==> forall c :: c in categories ==> c.id != id
    ensures k >= 0 ==> categories[k].id == id && forall j :: 0 <= j < k ==> categories[j].id != id
  {
    if categories == [] then -1
    else if categories[0].id == id then 0
    else
      var k := FindIndex(categories[1..], id);
      if k == -1 then -1 else k + 1
  }

  /** The list after the update reducer: the first category with the payload's
      id is replaced, or nothing changes when there is none. */
  function ReplaceFirst(categories: seq<Category>, c: Category): (r: seq<Category>)
    ensures |r| == |categories|
    ensures (forall x :: x in categories ==> x.id != c.id) ==> r == categories
    ensures forall j :: 0 <= j < |r| && j != FindIndex(categories, c.id) ==> r[j] == categories[j]
    ensures FindIndex(categories, c.id) >= 0 ==> r[FindIndex(categories, c.id)] == c
  {
    var k := FindIndex(categories, c.id);
    if k == -1 then categories else categories[k := c]
  }

  /** With distinct ids, replacing the first match is the same as replacing
      every match, as the incomes and admin-users slices do. */
  lemma ReplaceFirstIsReplaceById(categories: seq<Category>, c: Category)
    requires NoDuplicates(Ids(categories, CategoryId))
    ensures ReplaceFirst(categories, c) == ReplaceById(categories, CategoryId, c)
  {
    var r := ReplaceFirst(categories, c);
    var all := ReplaceById(categories, CategoryId, c);
    forall j | 0 <= j < |categories| ensures r[j] == all[j] {
      ReplaceFirstAt(categories, c, j);
    }
  }

  /** The position-by-position step of the lemma above. */
  lemma ReplaceFirstAt(categories: seq<Category>, c: Category, j: nat)
    requires NoDuplicates(Ids(categories, CategoryId)) && j < |categories|
    ensures ReplaceFirst(categories, c)[j] == ReplaceById(categories, CategoryId, c)[j]
  {
    var k := FindIndex(categories, c.id);
    if k >= 0 && j != k {
      var ids := Ids(categories, CategoryId);
      assert ids[j] != ids[k] by {
        if j < k {
          assert ids[j] != ids[k];
        } else {
          assert ids[k] != ids[j];
        }
      }
      assert categories[j].id != c.id;
    }
  }

  /** With a repeated id the two differ: a later copy of the id keeps its old
      entry under `updateCategory.fulfilled`, while replacing by id would
      overwrite it too. */
  lemma ReplaceFirstLeavesLaterCopies(categories: seq<Category>, c: Category, j: nat)
    requires FindIndex(categories, c.id) < j < |categories| && categories[j].id == c.id
    ensures ReplaceFirst(categories, c)[j] == categories[j]
    ensures ReplaceById(categories, CategoryId, c)[j] == c
    ensures categories[j] != c ==> ReplaceFirst(categories, c) != ReplaceById(categories, CategoryId, c)
  {
    assert CategoryId(categories[j]) == CategoryId(c);
  }

  // ---------------------------------------------------------------------------
  // The reducers

  /** `CategoriesState`. */
  class CategoriesState {
    var categories: seq<Category>
    var loading: bool
    var error: Option<string>

    /** `initialState`. */
    constructor ()
      ensures categories == [] && !loading && error == None
    {
      categories := [];
      loading := false;
      error := None;
    }

    /** `fetchCategories.pending`. */
    method FetchPending()
      modifies this
      ensures loading && error == None && categories == old(categories)
    {
      loading := true;
      error := None;
    }

    /** `fetchCategories.fulfilled`: the list is replaced wholesale. */
    method FetchFulfilled(payload: seq<Category>)
      modifies this
      ensures !loading && categories == payload && error == old(error)
    {
      loading := false;
      categories := payload;
    }

    /** `fetchCategories.rejected`: `action.payload ?? "Failed to fetch categories"`. */
    method FetchRejected(payload: Option<string>)
      modifies this
      ensures !loading && error == Some(payload.GetOr("Failed to fetch categories"))
      ensures categories == old(categories)
    {
      loading := false;
      error := Some(payload.GetOr("Failed to fetch categories"));
    }

    /** Runs the fetch reducer that matches how the thunk settled. */
    method FetchSettled(outcome: Settled<seq<Category>>)
      modifies this
      ensures !loading
      ensures outcome.Fulfilled? ==> categories == outcome.value && error == old(error)
      ensures outcome.Rejected? ==>
                categories == old(categories) && error == Some(outcome.payload.GetOr("Failed to fetch categories"))
    {
      match outcome
      case Fulfilled(items) => FetchFulfilled(items);
      case Rejected(payload) => FetchRejected(payload);
    }

    /** `addCategory.fulfilled`: `unshift`, so the new category comes first. */
    method AddFulfilled(c: Category)
      modifies this
      ensures categories == [c] + old(categories)
      ensures loading == old(loading) && error == old(error)
    {
      categories := [c] + categories;
    }

    /** `addCategory.rejected`: only the error changes. */
    method AddRejected(payload: Option<string>)
      modifies this
      ensures error == Some(payload.GetOr("Failed to add category"))
      ensures categories == old(categories) && loading == old(loading)
    {
      error := Some(payload.GetOr("Failed to add category"));
    }

    /** `updateCategory.fulfilled`: `findIndex`, then assignment at that index. */
    method UpdateFulfilled(c: Category)
      modifies this
      ensures categories == ReplaceFirst(old(categories), c)
      ensures loading == old(loading) && error == old(error)
    {
      var index := FindIndex(categories, c.id);
      if index != -1 {
        categories := categories[index := c];
      }
    }

    /** `updateCategory.rejected`: only the error changes. */
    method UpdateRejected(payload: Option<string>)
      modifies this
      ensures error == Some(payload.GetOr("Failed to update category"))
      ensures categories == old(categories) && loading == old(loading)
    {
      error := Some(payload.GetOr("Failed to update category"));
    }

    /** `deleteCategory.fulfilled`: every category with the id goes, the rest keep their order. */
    method DeleteFulfilled(id: string)
      modifies this
      ensures categories == RemoveById(old(categories), CategoryId, id)
      ensures loading == old(loading) && error == old(error)
    {
      categories := RemoveById(categories, CategoryId, id);
    }

    /** `deleteCategory.rejected`: only the error changes. */
    method DeleteRejected(payload: Option<string>)
      modifies this
      ensures error == Some(payload.GetOr("Failed to delete category"))
      ensures categories == old(categories) && loading == old(loading)
    {
      error := Some(payload.GetOr("Failed to delete category"));
    }
  }
}
