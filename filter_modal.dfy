/**
 * The filter sheet: a local copy of the filter options that the chips edit
 * one field at a time, a reset to fixed defaults, and an apply that hands
 * the local copy back to the caller.
 */
module FilterModal {
  import opened Wrappers

  datatype SortKey = ByTitle | ByPrice | ByRating
  datatype SortOrder = Asc | Desc

  /** `FilterOptions`; every field is optional in the source's type. */
  datatype FilterOptions = FilterOptions(
    category: Option<string>,
    minPrice: Option<real>,
    maxPrice: Option<real>,
    sortBy: Option<SortKey>,
    sortOrder: Option<SortOrder>)

  /** The keys of `FilterOptions`. */
  datatype FilterKey = CategoryKey | MinPriceKey | MaxPriceKey | SortByKey | SortOrderKey

  /** One `updateFilter(key, value)` call: the key together with a value of that key's type. */
  datatype FilterUpdate =
    | SetCategory(category: string)
    | SetMinPrice(minPrice: real)
    | SetMaxPrice(maxPrice: real)
    | SetSortBy(sortBy: SortKey)
    | SetSortOrder(sortOrder: SortOrder)

  function KeyOf(u: FilterUpdate): FilterKey {
    match u
    case SetCategory(_) => CategoryKey
    case SetMinPrice(_) => MinPriceKey
    case SetMaxPrice(_) => MaxPriceKey
    case SetSortBy(_) => SortByKey
    case SetSortOrder(_) => SortOrderKey
  }

  /** `f` and `g` hold the same value (or both none) under key `k`. */
  predicate SameAt(f: FilterOptions, g: FilterOptions, k: FilterKey) {
    match k
    case CategoryKey => f.category == g.category
    case MinPriceKey => f.minPrice == g.minPrice
    case MaxPriceKey => f.maxPrice == g.maxPrice
    case SortByKey => f.sortBy == g.sortBy
    case SortOrderKey => f.sortOrder == g.sortOrder
  }

  /** `f` holds the value the update writes. */
  predicate Holds(f: FilterOptions, u: FilterUpdate) {
    match u
    case SetCategory(c) => f.category == Some(c)
    case SetMinPrice(p) => f.minPrice == Some(p)
    case SetMaxPrice(p) => f.maxPrice == Some(p)
    case SetSortBy(s) => f.sortBy == Some(s)
    case SetSortOrder(o) => f.sortOrder == Some(o)
  }

  /** `{ ...prev, [key]: value }`: the updated key holds the new value and
      every other key keeps its old one. */
  function Updated(f: FilterOptions, u: FilterUpdate): (r: FilterOptions)
    ensures Holds(r, u)
    ensures forall k :: k != KeyOf(u) ==> SameAt(r, f, k)
  {
    match u
    case SetCategory(c) => f.(category := Some(c))
    case SetMinPrice(p) => f.(minPrice := Some(p))
    case SetMaxPrice(p) => f.(maxPrice := Some(p))
    case SetSortBy(s) => f.(sortBy := Some(s))
    case SetSortOrder(o) => f.(sortOrder := Some(o))
  }

  /** Agreeing on every key is equality. */
  lemma SameEverywhere(f: FilterOptions, g: FilterOptions)
    requires forall k :: SameAt(f, g, k)
    ensures f == g
  {
    assert SameAt(f, g, CategoryKey) && SameAt(f, g, MinPriceKey) && SameAt(f, g, MaxPriceKey);
    assert SameAt(f, g, SortByKey) && SameAt(f, g, SortOrderKey);
  }

  /** Two writes to the same key: the last one wins. */
  lemma LastWriteWins(f: FilterOptions, u1: FilterUpdate, u2: FilterUpdate)
    requires KeyOf(u1) == KeyOf(u2)
    ensures Updated(Updated(f, u1), u2) == Updated(f, u2)
  {
  }

  /** Writes to different keys do not interfere, in either order. */
  lemma UpdatesCommute(f: FilterOptions, u1: FilterUpdate, u2: FilterUpdate)
    requires KeyOf(u1) != KeyOf(u2)
    ensures Updated(Updated(f, u1), u2) == Updated(Updated(f, u2), u1)
  {
    var a := Updated(Updated(f, u1), u2);
    var b := Updated(Updated(f, u2), u1);
    forall k ensures SameAt(a, b, k) {
      if k == KeyOf(u1) {
        assert Holds(a, u1) && Holds(b, u1);
        match u1 {
          case SetCategory(_) =>
          case SetMinPrice(_) =>
          case SetMaxPrice(_) =>
          case SetSortBy(_) =>
          case SetSortOrder(_) =>
        }
      } else if k == KeyOf(u2) {
        assert Holds(a, u2) && Holds(b, u2);
        match u2 {
          case SetCategory(_) =>
          case SetMinPrice(_) =>
          case SetMaxPrice(_) =>
          case SetSortBy(_) =>
          case SetSortOrder(_) =>
        }
      } else {
        assert SameAt(a, Updated(f, u1), k) && SameAt(Updated(f, u1), f, k);
        assert SameAt(b, Updated(f, u2), k) && SameAt(Updated(f, u2), f, k);
        match k {
          case CategoryKey =>
          case MinPriceKey =>
          case MaxPriceKey =>
          case SortByKey =>
          case SortOrderKey =>
        }
      }
    }
    SameEverywhere(a, b);
  }

  /** What the reset button installs. */
  const ResetFilters: FilterOptions :=
    FilterOptions(Some(""), Some(0.0), Some(10000.0), Some(ByTitle), Some(Asc))

  /** The category chips, in display order. */
  const Categories: seq<string> := [
    "smartphones", "laptops", "fragrances", "skincare", "groceries",
    "home-decoration", "furniture", "tops", "womens-dresses", "womens-shoes",
    "mens-shirts", "mens-shoes", "mens-watches", "womens-watches", "womens-bags",
    "womens-jewellery", "sunglasses", "automotive", "motorcycle", "lighting"
  ]

  /** The sort-by chips and the sort-order chips, in display order. */
  const SortKeys: seq<SortKey> := [ByTitle, ByPrice, ByRating]
  const SortOrders: seq<SortOrder> := [Asc, Desc]

  predicate Distinct<T(==)>(s: seq<T>) {
    forall i, j :: 0 <= i < j < |s| ==> s[i] != s[j]
  }

  /** Chip `i` of a row is drawn active when its option equals the selection. */
  predicate ChipActive<T(==)>(options: seq<T>, selected: Option<T>, i: nat)
    requires i < |options|
  {
    selected == Some(options[i])
  }

  /** With distinct options at most one chip of a row is active. */
  lemma AtMostOneActiveChip<T>(options: seq<T>, selected: Option<T>, i: nat, j: nat)
    requires Distinct(options)
    requires i < |options| && j < |options|
    requires ChipActive(options, selected, i) && ChipActive(options, selected, j)
    ensures i == j
  {
  }

  /** Each chip row lists distinct options. */
  lemma ChipOptionsDistinct()
    ensures Distinct(Categories) && Distinct(SortKeys) && Distinct(SortOrders)
  {
    // Two category names differ in length, in their first letter or in
    // their third letter from the end.
    forall i, j | 0 <= i < j < |Categories| ensures Categories[i] != Categories[j] {
      var a, b := Categories[i], Categories[j];
      assert |a| != |b| || a[0] != b[0] || a[|a| - 3] != b[|b| - 3];
    }
  }

  /** Pressing a category chip makes it the one active category chip. */
  lemma PressedCategoryChipAlone(f: FilterOptions, i: nat, j: nat)
    requires i < |Categories| && j < |Categories|
    ensures ChipActive(Categories, Updated(f, SetCategory(Categories[i])).category, j) <==> i == j
  {
    ChipOptionsDistinct();
  }

  /** The value a sort-by chip writes into `sortBy`. */
  function SortKeyName(k: SortKey): string {
    match k
    case ByTitle => "title"
    case ByPrice => "price"
    case ByRating => "rating"
  }

  /** `toUpperCase` of a single ASCII letter; other characters are kept. */
  function UpperAscii(c: char): char {
    if 'a' <= c <= 'z' then (c as int - 32) as char else c
  }

  /** The label of a sort-by chip,
      `sortOption.charAt(0).toUpperCase() + sortOption.slice(1)`: the value
      it writes, with its first letter capitalised. */
  function SortLabel(k: SortKey): (l: string)
    ensures l == [UpperAscii(SortKeyName(k)[0])] + SortKeyName(k)[1..]
  {
    match k
    case ByTitle => "Title"
    case ByPrice => "Price"
    case ByRating => "Rating"
  }

  /** The label of a sort-order chip: "Low to High" exactly for ascending,
      "High to Low" exactly for descending. */
  function OrderLabel(o: SortOrder): (l: string)
    ensures l == "Low to High" <==> o == Asc
    ensures l == "High to Low" <==> o == Desc
  {
    match o
    case Asc => "Low to High"
    case Desc => "High to Low"
  }

  /** Different chips of a row carry different labels. */
  lemma ChipLabelsDistinct(k1: SortKey, k2: SortKey, o1: SortOrder, o2: SortOrder)
    ensures SortLabel(k1) == SortLabel(k2) ==> k1 == k2
    ensures OrderLabel(o1) == OrderLabel(o2) ==> o1 == o2
  {
    if k1 != k2 {
      assert SortKeyName(k1)[0] != SortKeyName(k2)[0];
      assert SortLabel(k1)[0] != SortLabel(k2)[0];
    }
  }

  class FilterModal {
    var localFilters: FilterOptions

    /** `useState(filters)`: the local copy starts as the incoming filters. */
    constructor (filters: FilterOptions)
      ensures localFilters == filters
    {
      localFilters := filters;
    }

    /** `updateFilter(key, value)`. */
    method UpdateFilter(u: FilterUpdate)
      modifies this
      ensures localFilters == Updated(old(localFilters), u)
      ensures Holds(localFilters, u)
      ensures forall k :: k != KeyOf(u) ==> SameAt(localFilters, old(localFilters), k)
    {
      localFilters := Updated(localFilters, u);
    }

    /** `handleReset`: the defaults, whatever was there before. */
    method HandleReset()
      modifies this
      ensures localFilters == ResetFilters
    {
      localFilters := ResetFilters;
    }

    /** `handleApply`: the local copy, passed on unchanged. */
    method HandleApply() returns (applied: FilterOptions)
      ensures applied == localFilters
    {
      applied := localFilters;
    }
  }
}
