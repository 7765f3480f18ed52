/**
 * The shop grid of components/shop/Card.tsx: the manufacturer list, the
 * four filters, the 9-per-page pagination and the image path rule, with
 * the component's React state (filter inputs and current page) as the
 * fields of class `ShopView`.  Prices are whole numbers here.
 */
module Shop {
  import opened Wrappers
  import opened JsArray
  import opened JsString

  datatype Medicine = Medicine(
    id: string,
    name: string,
    price: int,
    image: string,
    manufacturer: Option<string>,  // `Manufacturer` is optional
    category: string)              // `category.name`

  /** The filter inputs; a price bound is `None` while its input box is empty. */
  datatype Filters = Filters(
    activeTab: string,
    manufacturer: string,
    searchTerm: string,
    minPrice: Option<int>,
    maxPrice: Option<int>)

  const All := "All"
  const ItemsPerPage := 9

  // ----- Manufacturers ------------------------------------------------------

  /** `medicines.map(med => med.Manufacturer).filter(m => !!m)`. */
  function PresentManufacturers(meds: seq<Medicine>): (r: seq<string>)
    ensures forall i :: 0 <= i < |r| ==> r[i] != "" && exists j :: 0 <= j < |meds| && meds[j].manufacturer == Some(r[i])
    ensures forall j :: 0 <= j < |meds| && meds[j].manufacturer.Some? && meds[j].manufacturer.value != "" ==> meds[j].manufacturer.value in r
  {
    if meds == [] then []
    else
      var rest := PresentManufacturers(meds[1..]);
      assert forall i :: 0 <= i < |rest| ==> exists j :: 0 <= j < |meds| && meds[j].manufacturer == Some(rest[i]) by {
        forall i | 0 <= i < |rest| ensures exists j :: 0 <= j < |meds| && meds[j].manufacturer == Some(rest[i]) {
          var j :| 0 <= j < |meds[1..]| && meds[1..][j].manufacturer == Some(rest[i]);
          assert meds[j + 1].manufacturer == Some(rest[i]);
        }
      }
      match meds[0].manufacturer
      case Some(m) => if m != "" then [m] + rest else rest
      case None => rest
  }

  /**
   * `manufacturers`: each present, non-empty manufacturer once, ordered by
   * where it first appears among the present manufacturers.
   */
  function Manufacturers(meds: seq<Medicine>): seq<string> {
    Distinct(PresentManufacturers(meds))
  }

  /**
   * The manufacturer list has no duplicates and no empty entry, a name is on
   * it exactly when some medicine carries it, and names come in the order of
   * their first appearance in the catalog's present manufacturers.
   */
  lemma ManufacturersAreTheNamesInUse(meds: seq<Medicine>)
    ensures NoDuplicates(Manufacturers(meds))
    ensures forall i, j :: 0 <= i < j < |Manufacturers(meds)| ==>
      IndexOf(PresentManufacturers(meds), Manufacturers(meds)[i]) < IndexOf(PresentManufacturers(meds), Manufacturers(meds)[j])
    ensures forall i :: 0 <= i < |Manufacturers(meds)| ==> Manufacturers(meds)[i] != ""
    ensures forall m :: m in Manufacturers(meds) <==> m != "" && exists j :: 0 <= j < |meds| && meds[j].manufacturer == Some(m)
  {
    var present := PresentManufacturers(meds);
    var r := Manufacturers(meds);
    forall m | m in r ensures m != "" && exists j :: 0 <= j < |meds| && meds[j].manufacturer == Some(m) {
      var i :| 0 <= i < |r| && r[i] == m;
      var k :| 0 <= k < |present| && present[k] == m;
    }
    forall m | m != "" && exists j :: 0 <= j < |meds| && meds[j].manufacturer == Some(m) ensures m in r {
      var j :| 0 <= j < |meds| && meds[j].manufacturer == Some(m);
      var k :| 0 <= k < |present| && present[k] == m;
    }
  }

  // ----- Filters ------------------------------------------------------------

  predicate CategoryMatch(f: Filters, med: Medicine) {
    f.activeTab == All || med.category == f.activeTab
  }

  predicate ManufacturerMatch(f: Filters, med: Medicine) {
    f.manufacturer == All || med.manufacturer == Some(f.manufacturer)
  }

  /** `Number(minPrice || 0)`: an empty lower bound is 0. */
  function LowerBound(f: Filters): int {
    f.minPrice.GetOr(0)
  }

  /** The price test; an empty upper bound is `Infinity`, i.e. no bound. */
  predicate PriceMatch(f: Filters, med: Medicine) {
    LowerBound(f) <= med.price && (f.maxPrice == None || med.price <= f.maxPrice.value)
  }

  predicate SearchMatch(f: Filters, med: Medicine) {
    Includes(ToLower(med.name), ToLower(f.searchTerm))
  }

  predicate Matches(f: Filters, med: Medicine) {
    CategoryMatch(f, med) && ManufacturerMatch(f, med) && PriceMatch(f, med) && SearchMatch(f, med)
  }

  /** `filteredMedicines`. */
  function FilteredMedicines(meds: seq<Medicine>, f: Filters): seq<Medicine> {
    Filter(meds, (med: Medicine) => Matches(f, med))
  }

  /**
   * The filtered list keeps the medicines that pass all four tests, drops
   * the others, and keeps the catalog's order.
   */
  lemma FilteredIsOrderedSelection(meds: seq<Medicine>, f: Filters)
    ensures IsSubsequence(FilteredMedicines(meds, f), meds)
    ensures forall j :: 0 <= j < |meds| ==> (meds[j] in FilteredMedicines(meds, f) <==> Matches(f, meds[j]))
    ensures forall med :: multiset(FilteredMedicines(meds, f))[med] == if Matches(f, med) then multiset(meds)[med] else 0
  {
    FilterMultiset(meds, (med: Medicine) => Matches(f, med));
    FilterMembers(meds, (med: Medicine) => Matches(f, med));
    FilterIsSubsequence(meds, (med: Medicine) => Matches(f, med));
  }

  /**
   * The price test is inclusive at both ends; an empty min box means 0 and
   * an empty max box means no upper bound, whatever the other box holds.
   */
  lemma PriceBoundsInclusive(f: Filters, med: Medicine)
    ensures f.minPrice == None && f.maxPrice == None ==> (PriceMatch(f, med) <==> 0 <= med.price)
    ensures f.minPrice.Some? && f.maxPrice.Some? ==>
      (PriceMatch(f, med) <==> f.minPrice.value <= med.price <= f.maxPrice.value)
    ensures f.minPrice == None && f.maxPrice.Some? ==>
      (PriceMatch(f, med) <==> 0 <= med.price <= f.maxPrice.value)
    ensures f.minPrice.Some? && f.maxPrice == None ==>
      (PriceMatch(f, med) <==> f.minPrice.value <= med.price)
  {
  }

  /**
   * Each neutral setting lifts its own test alone: tab "All" passes every
   * category, manufacturer "All" every manufacturer, and the empty search
   * every name.
   */
  lemma NeutralSettingPassesAll(f: Filters, med: Medicine)
    ensures f.activeTab == All ==> CategoryMatch(f, med)
    ensures f.manufacturer == All ==> ManufacturerMatch(f, med)
    ensures f.searchTerm == "" ==> SearchMatch(f, med)
  {
    if f.searchTerm == "" {
      assert ToLower(f.searchTerm) == "";
      assert StartsWith(ToLower(med.name), "");
    }
  }

  /** The search is a case-insensitive substring test on the name. */
  lemma SearchIsCaseInsensitiveSubstring(f: Filters, med: Medicine)
    ensures SearchMatch(f, med) <==> exists i :: OccursAt(ToLower(med.name), ToLower(f.searchTerm), i)
    ensures SearchMatch(f, med) <==> SearchMatch(f.(searchTerm := ToLower(f.searchTerm)), med.(name := ToLower(med.name)))
  {
    IncludesIffOccurs(ToLower(med.name), ToLower(f.searchTerm));
    ToLowerIdempotent(f.searchTerm);
    ToLowerIdempotent(med.name);
  }

  /**
   * With tab and manufacturer "All", an empty search and no price bounds,
   * every medicine with a non-negative price is shown, in catalog order.
   */
  lemma NeutralFiltersKeepAll(meds: seq<Medicine>)
    requires forall j :: 0 <= j < |meds| ==> meds[j].price >= 0
    ensures FilteredMedicines(meds, Filters(All, All, "", None, None)) == meds
  {
    var f := Filters(All, All, "", None, None);
    forall j | 0 <= j < |meds| ensures Matches(f, meds[j]) {
      assert StartsWith(ToLower(meds[j].name), ToLower(""));
    }
    FilterAllKept(meds, (med: Medicine) => Matches(f, med));
  }

  // ----- Pagination ---------------------------------------------------------

  /** `Math.ceil(n / itemsPerPage)`. */
  function TotalPages(n: nat): (pages: nat)
    ensures n == 0 ==> pages == 0
    ensures n > 0 ==> (pages - 1) * ItemsPerPage < n <= pages * ItemsPerPage
  {
    (n + ItemsPerPage - 1) / ItemsPerPage
  }

  /** `filteredMedicines.slice(indexOfFirst, indexOfLast)` for page `page`. */
  function PageOf(list: seq<Medicine>, page: int): seq<Medicine> {
    var indexOfLast := page * ItemsPerPage;
    var indexOfFirst := indexOfLast - ItemsPerPage;
    Slice(list, indexOfFirst, indexOfLast)
  }

  function Min(a: int, b: int): int { if a <= b then a else b }

  /** Page `page` (from 1) is the window `[(page-1)*9, page*9)` cut off at the list's end. */
  lemma PageIsWindow(list: seq<Medicine>, page: int)
    requires page >= 1
    ensures PageOf(list, page) ==
      if (page - 1) * ItemsPerPage < |list| then list[(page - 1) * ItemsPerPage..Min(page * ItemsPerPage, |list|)] else []
    ensures |PageOf(list, page)| <= ItemsPerPage
  {
  }

  /** A page between 1 and the page count is never empty. */
  lemma PageInRangeIsNonEmpty(list: seq<Medicine>, page: int)
    requires 1 <= page <= TotalPages(|list|)
    ensures PageOf(list, page) != []
  {
    PageIsWindow(list, page);
  }

  /** Pages 1 to `count`, one after the other. */
  function Pages(list: seq<Medicine>, count: nat): seq<Medicine> {
    if count == 0 then [] else Pages(list, count - 1) + PageOf(list, count)
  }

  lemma {:induction false} PagesArePrefix(list: seq<Medicine>, count: nat)
    ensures Pages(list, count) == list[..Min(count * ItemsPerPage, |list|)]
  {
    if count > 0 {
      PagesArePrefix(list, count - 1);
      PageIsWindow(list, count);
      var lo, hi := Min((count - 1) * ItemsPerPage, |list|), Min(count * ItemsPerPage, |list|);
      assert list[..lo] + list[lo..hi] == list[..hi];
    }
  }

  /** Putting pages 1 to `TotalPages` together gives back the whole filtered list. */
  lemma PagesCoverList(list: seq<Medicine>)
    ensures Pages(list, TotalPages(|list|)) == list
  {
    PagesArePrefix(list, TotalPages(|list|));
    assert list[..|list|] == list;
  }

  /**
   * What the page state can be: 1, or a page that exists.  Page 1 is the
   * start value and the value every filter change sets; `goToPage` only
   * moves to existing pages.
   */
  predicate PageAllowed(page: int, totalPages: nat) {
    page == 1 || 1 <= page <= totalPages
  }

  /** On an allowed page, the grid shows something whenever some medicine passes the filters. */
  lemma AllowedPageShowsItems(list: seq<Medicine>, page: int)
    requires PageAllowed(page, TotalPages(|list|))
    ensures list != [] ==> PageOf(list, page) != []
  {
    if list != [] {
      PageInRangeIsNonEmpty(list, page);
    }
  }

  // ----- Images -------------------------------------------------------------

  /** The `src` of a medicine's image: absolute URLs as they are, anything else made root-relative. */
  function ImageSrc(image: string): (src: string)
    ensures src == image <==> StartsWith(image, "http")
    ensures StartsWith(src, "http") || StartsWith(src, "/")
    ensures !StartsWith(image, "http") ==> |src| > 0 && src[0] == '/'
    ensures |image| <= |src| <= |image| + 1
    ensures src[|src| - |image|..] == image
  {
    if StartsWith(image, "http") then image else "/" + image
  }

  // ----- The component's state ----------------------------------------------

  class ShopView {
    const medicines: seq<Medicine>
    var activeTab: string
    var selectedManufacturer: string
    var searchTerm: string
    var minPrice: Option<int>
    var maxPrice: Option<int>
    var currentPage: int

    function CurrentFilters(): Filters
      reads this
    {
      Filters(activeTab, selectedManufacturer, searchTerm, minPrice, maxPrice)
    }

    function Filtered(): seq<Medicine>
      reads this
    {
      FilteredMedicines(medicines, CurrentFilters())
    }

    function PageCount(): nat
      reads this
    {
      TotalPages(|Filtered()|)
    }

    /** `currentMedicines`: what the grid shows. */
    function CurrentMedicines(): seq<Medicine>
      reads this
    {
      PageOf(Filtered(), currentPage)
    }

    ghost predicate Valid()
      reads this
    {
      PageAllowed(currentPage, PageCount())
    }

    /** The first render: tab and manufacturer "All", empty search, prices "0" to "1000", page 1. */
    constructor (medicines: seq<Medicine>)
      ensures this.medicines == medicines
      ensures CurrentFilters() == Filters(All, All, "", Some(0), Some(1000))
      ensures currentPage == 1
      ensures Valid()
    {
      this.medicines := medicines;
      activeTab, selectedManufacturer, searchTerm := All, All, "";
      minPrice, maxPrice := Some(0), Some(1000);
      currentPage := 1;
    }

    /** `goToPage`: move only to a page that exists. */
    method GoToPage(pageNumber: int)
      requires Valid()
      modifies this
      ensures currentPage == if 1 <= pageNumber <= old(PageCount()) then pageNumber else old(currentPage)
      ensures CurrentFilters() == old(CurrentFilters())
      ensures Valid()
    {
      if 1 <= pageNumber <= PageCount() {
        currentPage := pageNumber;
      }
    }

    /** Typing in the search box. */
    method SetSearchTerm(value: string)
      modifies this
      ensures CurrentFilters() == old(CurrentFilters()).(searchTerm := value)
      ensures currentPage == 1
      ensures Valid()
    {
      searchTerm := value;
      currentPage := 1;
    }

    /** Clicking a category tab. */
    method SetActiveTab(tab: string)
      modifies this
      ensures CurrentFilters() == old(CurrentFilters()).(activeTab := tab)
      ensures currentPage == 1
      ensures Valid()
    {
      activeTab := tab;
      currentPage := 1;
    }

    /** Choosing in the manufacturer select. */
    method SetManufacturer(value: string)
      modifies this
      ensures CurrentFilters() == old(CurrentFilters()).(manufacturer := value)
      ensures currentPage == 1
      ensures Valid()
    {
      selectedManufacturer := value;
      currentPage := 1;
    }

    /** Editing the minimum price box (`None`: the box was emptied). */
    method SetMinPrice(value: Option<int>)
      modifies this
      ensures CurrentFilters() == old(CurrentFilters()).(minPrice := value)
      ensures currentPage == 1
      ensures Valid()
    {
      minPrice := value;
      currentPage := 1;
    }

    /** Editing the maximum price box (`None`: the box was emptied). */
    method SetMaxPrice(value: Option<int>)
      modifies this
      ensures CurrentFilters() == old(CurrentFilters()).(maxPrice := value)
      ensures currentPage == 1
      ensures Valid()
    {
      maxPrice := value;
      currentPage := 1;
    }
  }
}
