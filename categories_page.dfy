/** CategoriesPage: case-insensitive search, pagination in pages of eight,
    and the add, edit and search handlers as a small state machine. */
module CategoriesPage {
  import opened Common
  import opened Text
  import opened Records
  import CategoriesSlice

  // ---------------------------------------------------------------------------
  // Search

  /** The search test: the lower-cased name contains the lower-cased term. */
  function Matches(term: string): Category -> bool {
    (c: Category) => Includes(Lower(c.name), Lower(term))
  }

  /** `filteredCategories`; the store's list is None when it is not an array. */
  function Filtered(categories: Option<seq<Category>>, term: string): (r: seq<Category>)
    ensures categories.None? ==> r == []
    ensures categories.Some? ==> forall c :: c in r <==> c in categories.value && Includes(Lower(c.name), Lower(term))
  {
    match categories
    case None => []
    case Some(cats) => Filter(cats, Matches(term))
  }

  /** A category is kept exactly when the lower-cased term occurs somewhere in
      its lower-cased name. */
  lemma FilteredMeansOccurs(cats: seq<Category>, term: string, c: Category)
    ensures c in Filtered(Some(cats), term) <==> c in cats && exists k: nat :: OccursAt(Lower(c.name), Lower(term), k)
  {
    IncludesIffOccurs(Lower(c.name), Lower(term));
    assert c in Filtered(Some(cats), term) <==> c in cats && Includes(Lower(c.name), Lower(term));
  }

  /** The search keeps the order of the list. */
  lemma FilteredKeepsOrder(a: seq<Category>, b: seq<Category>, term: string)
    ensures Filtered(Some(a + b), term) == Filtered(Some(a), term) + Filtered(Some(b), term)
  {
    FilterAppend(a, b, Matches(term));
  }

  /** An empty term keeps every category. */
  lemma EmptyTermKeepsAll(cats: seq<Category>)
    ensures Filtered(Some(cats), "") == cats
  {
    FilterKeepsAll(cats, Matches(""));
  }

  /** The case of the term does not matter. */
  lemma TermCaseIgnored(cats: seq<Category>, term: string)
    ensures Filtered(Some(cats), Lower(term)) == Filtered(Some(cats), term)
  {
    LowerIdempotent(term);
    FilterSameTest(cats, Matches(Lower(term)), Matches(term));
  }

  // ---------------------------------------------------------------------------
  // Pagination

  const ItemsPerPage: nat := 8

  /** `Math.ceil(count / ITEMS_PER_PAGE)`. */
  function TotalPages(count: nat): (r: nat)
    ensures r * ItemsPerPage >= count
    ensures r == 0 || (r - 1) * ItemsPerPage < count
  {
    (count + ItemsPerPage - 1) / ItemsPerPage
  }

  /** `startIndex` of a page (pages are numbered from 1). */
  function StartIndex(page: nat): (r: nat)
    requires page >= 1
    ensures r % ItemsPerPage == 0 && r / ItemsPerPage == page - 1
  {
    (page - 1) * ItemsPerPage
  }

  /** `paginatedCategories`: the page's slice of the filtered list, clipped at its end. */
  function PageOf(filtered: seq<Category>, page: nat): (r: seq<Category>)
    requires page >= 1
    ensures |r| <= ItemsPerPage
    ensures |r| == Min(ItemsPerPage, if StartIndex(page) <= |filtered| then |filtered| - StartIndex(page) else 0)
    ensures forall i :: 0 <= i < |r| ==> r[i] == filtered[StartIndex(page) + i]
    ensures page > TotalPages(|filtered|) ==> r == []
  {
    Slice(filtered, StartIndex(page), StartIndex(page) + ItemsPerPage)
  }

  /** Pages 1 to n laid end to end. */
  function FirstPages(filtered: seq<Category>, n: nat): seq<Category> {
    if n == 0 then [] else FirstPages(filtered, n - 1) + PageOf(filtered, n)
  }

  lemma {:induction false} FirstPagesPrefix(filtered: seq<Category>, n: nat)
    ensures FirstPages(filtered, n) == filtered[..Min(n * ItemsPerPage, |filtered|)]
  {
    if n > 0 {
      FirstPagesPrefix(filtered, n - 1);
      var start := StartIndex(n);
      assert start == (n - 1) * ItemsPerPage;
      assert n * ItemsPerPage == start + ItemsPerPage;
      var lo := Min(start, |filtered|);
      var hi := Min(start + ItemsPerPage, |filtered|);
      assert PageOf(filtered, n) == filtered[lo..hi] by {
        if start <= |filtered| {
          assert PageOf(filtered, n) == Slice(filtered, start, start + ItemsPerPage);
        }
      }
      assert filtered[..lo] + filtered[lo..hi] == filtered[..hi];
    }
  }

  /** Pages 1 to `totalPages` partition the filtered list, in order. */
  lemma PagesPartition(filtered: seq<Category>)
    ensures FirstPages(filtered, TotalPages(|filtered|)) == filtered
  {
    FirstPagesPrefix(filtered, TotalPages(|filtered|));
    assert filtered[..|filtered|] == filtered;
  }

  /** The number in the first column: `startIndex + idx + 1`. */
  function RowNumber(page: nat, idx: nat): (r: nat)
    requires page >= 1
    ensures r >= 1
    ensures idx < ItemsPerPage ==> (r - 1) / ItemsPerPage == page - 1 && (r - 1) % ItemsPerPage == idx
  {
    StartIndex(page) + idx + 1
  }

  /** Row idx of page p shows the category at that 1-based position of the filtered list. */
  lemma RowNumberIsPosition(filtered: seq<Category>, page: nat, idx: nat)
    requires page >= 1 && idx < |PageOf(filtered, page)|
    ensures 1 <= RowNumber(page, idx) <= |filtered|
    ensures filtered[RowNumber(page, idx) - 1] == PageOf(filtered, page)[idx]
  {
  }

  /** Prev is disabled on page 1. */
  predicate PrevDisabled(page: int)
    ensures page >= 1 && !PrevDisabled(page) ==> page - 1 >= 1
  {
    page == 1
  }

  /** Next is disabled on the page numbered `totalPages`, and only there. */
  predicate NextDisabled(page: int, totalPages: nat)
    ensures page <= totalPages && !NextDisabled(page, totalPages) ==> page + 1 <= totalPages
  {
    page == totalPages
  }

  /** With no matching category there are no pages, and Next stays enabled on page 1. */
  lemma NextEnabledWithoutResults(cats: Option<seq<Category>>, term: string)
    requires Filtered(cats, term) == []
    ensures TotalPages(|Filtered(cats, term)|) == 0 && !NextDisabled(1, TotalPages(|Filtered(cats, term)|))
  {
  }

  /** Within the page range, an enabled Next leads to a non-empty page, and an
      enabled Prev does too. */
  lemma ButtonsLeadToPages(filtered: seq<Category>, page: nat)
    requires 1 <= page <= TotalPages(|filtered|)
    ensures !NextDisabled(page, TotalPages(|filtered|)) ==> PageOf(filtered, page + 1) != []
    ensures !PrevDisabled(page) ==> PageOf(filtered, page - 1) != []
  {
  }

  // ---------------------------------------------------------------------------
  // Handlers

  /** What `handleAdd` dispatches: the name as typed, unless it is only white space. */
  function AddRequest(newCategory: string): (r: Option<string>)
    ensures r.None? <==> Blank(newCategory)
    ensures r.Some? ==> r.value == newCategory
  {
    TrimEmptyIffBlank(newCategory);
    if Trim(newCategory) == "" then None else Some(newCategory)
  }

  datatype Rename = Rename(id: string, name: string)

  /** What `saveEdit` dispatches: nothing for a blank name or a missing id. */
  function SaveRequest(editingId: Option<string>, editingName: string): (r: Option<Rename>)
    ensures r.None? <==> Blank(editingName) || editingId == None || editingId == Some("")
    ensures r.Some? ==> r.value == Rename(editingId.value, editingName)
  {
    TrimEmptyIffBlank(editingName);
    if Trim(editingName) == "" || editingId == None || editingId == Some("") then None
    else Some(Rename(editingId.value, editingName))
  }

  /** The page's own state. */
  class CategoriesPageState {
    var newCategory: string
    var editingId: Option<string>
    var editingName: string
    var searchTerm: string
    var currentPage: int
    var isAddModalOpen: bool

    /** Pages are numbered from 1, and no handler goes below that. */
    ghost predicate Valid()
      reads this
    {
      currentPage >= 1
    }

    constructor ()
      ensures Valid()
      ensures newCategory == "" && editingId == None && editingName == "" && searchTerm == ""
      ensures currentPage == 1 && !isAddModalOpen
    {
      newCategory := "";
      editingId := None;
      editingName := "";
      searchTerm := "";
      currentPage := 1;
      isAddModalOpen := false;
    }

    /** The search box: a new term, and back to page 1. */
    method Search(term: string)
      requires Valid()
      modifies this
      ensures Valid()
      ensures searchTerm == term && currentPage == 1
      ensures newCategory == old(newCategory) && editingId == old(editingId) && editingName == old(editingName)
      ensures isAddModalOpen == old(isAddModalOpen)
    {
      searchTerm := term;
      currentPage := 1;
    }

    /** Prev, which can only be pressed while enabled. */
    method Prev()
      requires Valid() && !PrevDisabled(currentPage)
      modifies this
      ensures Valid()
      ensures currentPage == old(currentPage) - 1 && searchTerm == old(searchTerm)
      ensures newCategory == old(newCategory) && editingId == old(editingId) && editingName == old(editingName)
      ensures isAddModalOpen == old(isAddModalOpen)
    {
      currentPage := currentPage - 1;
    }

    /** Next, which can only be pressed while enabled. The page count is the
        one the page derives from the loaded list and the search term; Next is
        not kept within it (see NextEnabledWithoutResults). */
    method Next(cats: Option<seq<Category>>)
      requires Valid() && !NextDisabled(currentPage, TotalPages(|Filtered(cats, searchTerm)|))
      modifies this
      ensures Valid()
      ensures currentPage == old(currentPage) + 1 && searchTerm == old(searchTerm)
      ensures newCategory == old(newCategory) && editingId == old(editingId) && editingName == old(editingName)
      ensures isAddModalOpen == old(isAddModalOpen)
    {
      currentPage := currentPage + 1;
    }

    /** The numbered button at position i (0-based) of the page list. */
    method GoToPage(i: nat, cats: Option<seq<Category>>)
      requires Valid() && i < TotalPages(|Filtered(cats, searchTerm)|)
      modifies this
      ensures Valid()
      ensures currentPage == i + 1 && searchTerm == old(searchTerm)
      ensures newCategory == old(newCategory) && editingId == old(editingId) && editingName == old(editingName)
      ensures isAddModalOpen == old(isAddModalOpen)
    {
      currentPage := i + 1;
    }

    /** `startEdit`: the row switches to an input holding the name. */
    method StartEdit(cat: Category)
      requires Valid()
      modifies this
      ensures Valid()
      ensures editingId == Some(cat.id) && editingName == cat.name
      ensures newCategory == old(newCategory) && searchTerm == old(searchTerm) && currentPage == old(currentPage)
      ensures isAddModalOpen == old(isAddModalOpen)
    {
      editingId := Some(cat.id);
      editingName := cat.name;
    }

    /** The row's Cancel button: leaves edit mode; the typed name is kept. */
    method CancelEdit()
      requires Valid()
      modifies this
      ensures Valid()
      ensures editingId == None && editingName == old(editingName)
      ensures newCategory == old(newCategory) && searchTerm == old(searchTerm) && currentPage == old(currentPage)
      ensures isAddModalOpen == old(isAddModalOpen)
    {
      editingId := None;
    }

    /** `saveEdit`, given how `updateCategory` settled: on success edit mode
        ends and the input clears; on failure the alert shows the rejection
        message or "Failed to update category". */
    method SaveEdit(outcome: CategoriesSlice.Settled<Category>) returns (request: Option<Rename>, alert: Option<string>)
      requires Valid()
      modifies this
      ensures Valid()
      ensures request == SaveRequest(old(editingId), old(editingName))
      ensures request.Some? && outcome.Fulfilled? ==> editingId == None && editingName == "" && alert == None
      ensures request.Some? && outcome.Rejected? ==>
                editingId == old(editingId) && editingName == old(editingName)
                && alert == Some(OrElse(outcome.payload, "Failed to update category"))
      ensures request.None? ==> editingId == old(editingId) && editingName == old(editingName) && alert == None
      ensures newCategory == old(newCategory) && searchTerm == old(searchTerm) && currentPage == old(currentPage)
      ensures isAddModalOpen == old(isAddModalOpen)
    {
      alert := None;
      request := SaveRequest(editingId, editingName);
      if request.Some? {
        if outcome.Fulfilled? {
          EndEdit();
        } else {
          alert := Some(OrElse(outcome.payload, "Failed to update category"));
        }
      }
    }

    /** The resets after a successful rename. */
    method EndEdit()
      requires Valid()
      modifies this
      ensures Valid()
      ensures editingId == None && editingName == ""
      ensures newCategory == old(newCategory) && searchTerm == old(searchTerm) && currentPage == old(currentPage)
      ensures isAddModalOpen == old(isAddModalOpen)
    {
      editingId := None;
      editingName := "";
    }

    method OpenAddModal()
      requires Valid()
      modifies this
      ensures Valid()
      ensures isAddModalOpen
      ensures newCategory == old(newCategory) && editingId == old(editingId) && editingName == old(editingName)
      ensures searchTerm == old(searchTerm) && currentPage == old(currentPage)
    {
      isAddModalOpen := true;
    }

    /** The modal's Cancel button and the Escape key. */
    method CloseAddModal()
      requires Valid()
      modifies this
      ensures Valid()
      ensures !isAddModalOpen
      ensures newCategory == old(newCategory) && editingId == old(editingId) && editingName == old(editingName)
      ensures searchTerm == old(searchTerm) && currentPage == old(currentPage)
    {
      isAddModalOpen := false;
    }

    /** `handleAdd`, given how `addCategory` settled: on success the input
        clears; on failure the alert shows the rejection message or "Failed to
        add category". */
    method Add(outcome: CategoriesSlice.Settled<Category>) returns (request: Option<string>, alert: Option<string>)
      requires Valid()
      modifies this
      ensures Valid()
      ensures request == AddRequest(old(newCategory))
      ensures newCategory == (if request.Some? && outcome.Fulfilled? then "" else old(newCategory))
      ensures alert == (if request.Some? && outcome.Rejected? then Some(OrElse(outcome.payload, "Failed to add category")) else None)
      ensures editingId == old(editingId) && editingName == old(editingName)
      ensures searchTerm == old(searchTerm) && currentPage == old(currentPage) && isAddModalOpen == old(isAddModalOpen)
    {
      alert := None;
      request := AddRequest(newCategory);
      if request.Some? {
        if outcome.Fulfilled? {
          newCategory := "";
        } else {
          alert := Some(OrElse(outcome.payload, "Failed to add category"));
        }
      }
    }

    /** The modal's Add button: `handleAdd`, then the modal closes whatever happened. */
    method AddFromModal(outcome: CategoriesSlice.Settled<Category>) returns (request: Option<string>, alert: Option<string>)
      requires Valid()
      modifies this
      ensures Valid()
      ensures request == AddRequest(old(newCategory))
      ensures newCategory == (if request.Some? && outcome.Fulfilled? then "" else old(newCategory))
      ensures alert == (if request.Some? && outcome.Rejected? then Some(OrElse(outcome.payload, "Failed to add category")) else None)
      ensures !isAddModalOpen
      ensures editingId == old(editingId) && editingName == old(editingName)
      ensures searchTerm == old(searchTerm) && currentPage == old(currentPage)
    {
      request, alert := Add(outcome);
      isAddModalOpen := false;
    }
  }
}
